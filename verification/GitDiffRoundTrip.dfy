/**
 * Rendering a list of changes as a unified diff and parsing it back gives the same paths, old paths
 * and statuses in order, and nothing else: the parser inverts the rendering.
 */
module GitDiffRoundTrip {
  import opened Basics
  import opened Json
  import opened Approval
  import opened GitDiff

  // ----- rendering ----------------------------------------------------------------------------------------------

  function Digit(n: nat): char
    requires n < 10
  {
    '0' + n as char
  }

  function Decimal(n: nat): string {
    if n < 10 then [Digit(n)] else Decimal(n / 10) + [Digit(n % 10)]
  }

  datatype Hunk = Hunk(oldStart: nat, newStart: nat, body: seq<string>)

  datatype Edit =
    | Add(path: string, hunks: seq<Hunk>)
    | Delete(path: string, hunks: seq<Hunk>)
    | Modify(path: string, hunks: seq<Hunk>)
    | Rename(source: string, path: string, hunks: seq<Hunk>)

  function HunkHeader(h: Hunk): string {
    "@@ -" + (Decimal(h.oldStart) + "," + Decimal(|Filter(h.body, OldSide())|) + (" +"
    + (Decimal(h.newStart) + "," + Decimal(|Filter(h.body, NewSide())|) + " @@")))
  }

  function HunkLines(h: Hunk): seq<string> {
    [HunkHeader(h)] + h.body
  }

  function HunkSegments(hunks: seq<Hunk>): seq<seq<string>> {
    if hunks == [] then [] else [HunkLines(hunks[0])] + HunkSegments(hunks[1..])
  }

  function HeaderLine(source: string, path: string): string {
    JoinWith(["diff", "--git", "a/" + source, "b/" + path], ' ')
  }

  function OldName(e: Edit): string {
    if e.Rename? then e.source else e.path
  }

  function FileLines(oldText: string, newText: string): seq<string> {
    ["--- " + oldText, "+++ " + newText]
  }

  function MetadataLines(e: Edit): seq<string> {
    match e
    case Add(path, _) => ["new file mode 100644"] + FileLines("/dev/null", "b/" + path)
    case Delete(path, _) => ["deleted file mode 100644"] + FileLines("a/" + path, "/dev/null")
    case Modify(path, _) => FileLines("a/" + path, "b/" + path)
    case Rename(source, path, hunks) =>
      ["rename from " + source] + (["rename to " + path] + if hunks == [] then [] else FileLines("a/" + source, "b/" + path))
  }

  function SectionLines(e: Edit): seq<string> {
    [HeaderLine(OldName(e), e.path)] + (MetadataLines(e) + Concat(HunkSegments(e.hunks)))
  }

  function Sections(edits: seq<Edit>): seq<seq<string>> {
    if edits == [] then [] else [SectionLines(edits[0])] + Sections(edits[1..])
  }

  /** Every line ended by a newline. */
  function Text(lines: seq<string>): string {
    if lines == [] then "" else lines[0] + "\n" + Text(lines[1..])
  }

  function Rendered(edits: seq<Edit>): string {
    Text(Concat(Sections(edits)))
  }

  // ----- what may be rendered -----------------------------------------------------------------------------------

  predicate PlainChar(c: char) {
    'a' <= c <= 'z' || 'A' <= c <= 'Z' || IsDigit(c) || c == '_' || c == '-' || c == '.' || c == '/'
  }

  predicate Plain(s: string) {
    s != "" && forall i :: 0 <= i < |s| ==> PlainChar(s[i])
  }

  /** A path of plain characters without empty, `.` or `..` pieces. */
  predicate SimplePath(p: string) {
    Plain(p) && |p| <= MAX_PATH_CHARS && forall piece :: piece in SplitOn(p, '/') ==> piece != "" && piece != "." && piece != ".."
  }

  predicate OneLine(line: string) {
    forall i :: 0 <= i < |line| ==> !LineBreak(line[i]) && line[i] != 0 as char
  }

  predicate GoodHunk(h: Hunk) {
    forall line :: line in h.body ==> BodyLine(line) && OneLine(line)
  }

  predicate GoodEdit(e: Edit) {
    && SimplePath(e.path) && (e.Rename? ==> SimplePath(e.source)) && (!e.Rename? ==> e.hunks != [])
    && forall h :: h in e.hunks ==> GoodHunk(h)
  }

  /** A POSIX shell splits plain words at single blanks. */
  ghost predicate GoodShell(split: Shell) {
    forall words: seq<string> {:trigger JoinWith(words, ' ')} ::
      words != [] && (forall w :: w in words ==> Plain(w)) ==> split(JoinWith(words, ' ')) == Some(words)
  }

  /** What a change says about an edit. */
  predicate Describes(change: Change, e: Edit) {
    && change.path == e.path
    && change.oldPath == (if e.Rename? then Some(e.source) else None)
    && change.status == (match e
                         case Add(_, _) => Added
                         case Delete(_, _) => Deleted
                         case Modify(_, _) => Modified
                         case Rename(_, _, _) => Renamed)
    && !change.unknownMetadata
  }

  // ----- decimal numbers ------------------------------------------------------------------------------------------

  lemma {:induction false} DecimalCounts(n: nat)
    ensures Decimal(n) != "" && (forall i :: 0 <= i < |Decimal(n)| ==> IsDigit(Decimal(n)[i])) && DigitValue(Decimal(n)) == n
  {
    if n >= 10 {
      DecimalCounts(n / 10);
      assert Decimal(n)[..|Decimal(n)| - 1] == Decimal(n / 10);
    }
  }

  function Power(k: nat): nat {
    if k == 0 then 1 else 10 * Power(k - 1)
  }

  lemma {:induction false} DecimalLength(n: nat, k: nat)
    requires k > 0 && n < Power(k)
    ensures |Decimal(n)| <= k
  {
    if n >= 10 {
      DecimalLength(n / 10, k - 1);
    }
  }

  lemma {:induction false} DigitRunOf(digits: string, rest: string)
    requires forall i :: 0 <= i < |digits| ==> IsDigit(digits[i])
    requires rest == "" || !IsDigit(rest[0])
    ensures DigitRun(digits + rest) == |digits|
  {
    if digits == "" {
      assert digits + rest == rest;
    } else {
      assert (digits + rest)[1..] == digits[1..] + rest;
      DigitRunOf(digits[1..], rest);
    }
  }

  predicate AllDigits(s: string) {
    s != "" && forall i :: 0 <= i < |s| ==> IsDigit(s[i])
  }

  lemma RangeOf(a: string, b: string, rest: string)
    requires AllDigits(a) && AllDigits(b) && rest != "" && !IsDigit(rest[0])
    ensures RangeAt(a + "," + b + rest) == Some((b, rest))
  {
    var s, tail := a + "," + b + rest, "," + b + rest;
    assert s == a + tail;
    DigitRunOf(a, tail);
    assert s[|a|..] == tail && tail[1..] == b + rest;
    assert s[|a|] == ',' && s[|a| + 1..] == b + rest;
    DigitRunOf(b, rest);
    TakeDrop(s, |a| + 1, b, rest);
  }

  lemma TakeDrop(s: string, n: nat, b: string, rest: string)
    requires n <= |s| && s[n..] == b + rest
    ensures n + |b| <= |s| && s[n..n + |b|] == b && s[n + |b|..] == rest
  {
    assert |s[n..]| == |b| + |rest|;
    assert s[n..][..|b|] == b && s[n..][|b|..] == rest;
    assert s[n..n + |b|] == s[n..][..|b|];
    assert s[n + |b|..] == s[n..][|b|..];
  }

  lemma RangeReadsBack(start: nat, count: nat, rest: string)
    requires rest != "" && !IsDigit(rest[0])
    ensures RangeAt(Decimal(start) + "," + Decimal(count) + rest) == Some((Decimal(count), rest))
  {
    DecimalCounts(start);
    DecimalCounts(count);
    RangeOf(Decimal(start), Decimal(count), rest);
  }

  lemma AfterPrefix(prefix: string, rest: string)
    ensures After(prefix + rest, prefix) == Some(rest)
  {
    assert (prefix + rest)[|prefix|..] == rest;
  }

  lemma RightRangeReads(start: nat, news: nat)
    ensures var s := Decimal(start) + "," + Decimal(news) + " @@";
            RangeAt(s) == Some((Decimal(news), " @@"))
  {
    RangeReadsBack(start, news, " @@");
  }

  lemma HunkEndReads()
    ensures After(" @@", " @@") == Some("")
  {
    assert " @@" + "" == " @@";
    AfterPrefix(" @@", "");
  }

  /** A rendered hunk header gives back its counts. */
  lemma HeaderReadsBack(h: Hunk)
    ensures HunkRanges(HunkHeader(h))
            == Some((Decimal(|Filter(h.body, OldSide())|), Decimal(|Filter(h.body, NewSide())|)))
  {
    var olds, news := |Filter(h.body, OldSide())|, |Filter(h.body, NewSide())|;
    HeaderOf(HunkHeader(h), h.oldStart, olds, h.newStart, news);
  }

  lemma HeaderOf(line: string, oldStart: nat, olds: nat, newStart: nat, news: nat)
    requires line == "@@ -" + (Decimal(oldStart) + "," + Decimal(olds) + (" +" + (Decimal(newStart) + "," + Decimal(news) + " @@")))
    ensures HunkRanges(line) == Some((Decimal(olds), Decimal(news)))
  {
    var right := Decimal(newStart) + "," + Decimal(news) + " @@";
    var left := Decimal(oldStart) + "," + Decimal(olds) + (" +" + right);
    AfterPrefix("@@ -", left);
    RangeReadsBack(oldStart, olds, " +" + right);
    AfterPrefix(" +", right);
    RightRangeReads(newStart, news);
    HunkEndReads();
  }

  lemma BoundedCountIsShort(n: nat)
    requires n <= MAX_DIFF_LINES
    ensures |Decimal(n)| <= 5
  {
    assert Power(5) == 100000 by {
      assert Power(1) == 10 && Power(2) == 100 && Power(3) == 1000 && Power(4) == 10000;
    }
    DecimalLength(n, 5);
  }

  /** A rendered hunk of bounded length checks. */
  lemma HunkIsAccepted(h: Hunk)
    requires GoodHunk(h) && |h.body| <= MAX_DIFF_LINES
    ensures HunkChecked(HunkLines(h)).None?
  {
    var olds, news := |Filter(h.body, OldSide())|, |Filter(h.body, NewSide())|;
    HeaderReadsBack(h);
    FilterShorter(h.body, OldSide());
    FilterShorter(h.body, NewSide());
    BoundedCountIsShort(olds);
    BoundedCountIsShort(news);
    DecimalCounts(olds);
    DecimalCounts(news);
    assert HunkLines(h)[1..] == h.body;
  }

  lemma {:induction false} FilterShorter(lines: seq<string>, test: LineTest)
    ensures |Filter(lines, test)| <= |lines|
  {
    if lines != [] {
      FilterShorter(lines[1..], test);
    }
  }

  // ----- cutting what was put together ----------------------------------------------------------------------------

  /** The inverse of cutting: segments put together are cut into the same segments. */
  lemma {:induction false} SegmentsOfConcat(segments: seq<seq<string>>, head: LineTest)
    requires forall k :: 0 <= k < |segments| ==> IsSegment(segments[k], head)
    ensures Segments(Concat(segments), head) == segments
    ensures Concat(segments) == [] || head(Concat(segments)[0])
  {
    if segments != [] {
      var first, rest := segments[0], Concat(segments[1..]);
      SegmentsOfConcat(segments[1..], head);
      assert (first + rest)[1..] == first[1..] + rest;
      UntilHeadIs((first + rest)[1..], head, |first| - 1);
      assert (first + rest)[..|first|] == first && (first + rest)[|first|..] == rest;
      SegmentsCons(first + rest, head, |first| - 1, first, rest);
    }
  }

  // ----- text and lines -----------------------------------------------------------------------------------------

  lemma {:induction false} UnixOf(s: string)
    requires '\r' !in s
    ensures Unix(s) == s
  {
    if s != "" {
      assert s == [s[0]] + s[1..];
      UnixOf(s[1..]);
    }
  }

  lemma {:induction false} BreakAtOf(line: string, rest: string)
    requires OneLine(line)
    ensures BreakAt(line + "\n" + rest) == |line|
  {
    var s := line + "\n" + rest;
    if line == "" {
      assert s == "\n" + rest;
    } else {
      assert s[1..] == line[1..] + "\n" + rest;
      BreakAtOf(line[1..], rest);
    }
  }

  lemma SplitLinesCons(line: string, rest: string)
    requires OneLine(line)
    ensures SplitLines(line + "\n" + rest) == [line] + SplitLines(rest)
  {
    BreakAtOf(line, rest);
    var s := line + "\n" + rest;
    assert s[..|line|] == line && s[|line| + 1..] == rest;
  }

  lemma {:induction false} TextSplitsBack(lines: seq<string>)
    requires forall line :: line in lines ==> OneLine(line)
    ensures SplitLines(Text(lines)) == lines
  {
    if lines != [] {
      TextSplitsBack(lines[1..]);
      SplitLinesCons(lines[0], Text(lines[1..]));
    }
  }

  lemma {:induction false} TextIsClean(lines: seq<string>)
    requires forall line :: line in lines ==> OneLine(line)
    ensures '\r' !in Text(lines) && 0 as char !in Text(lines)
  {
    if lines != [] {
      TextIsClean(lines[1..]);
      assert OneLine(lines[0]);
    }
  }

  // ----- paths ----------------------------------------------------------------------------------------------------

  lemma {:induction false} JoinSplit(s: string, c: char)
    ensures JoinWith(SplitOn(s, c), c) == s
  {
    if s != "" {
      JoinSplit(s[1..], c);
      var rest := SplitOn(s[1..], c);
      if s[0] == c {
        assert ([""] + rest)[1..] == rest;
      } else {
        var pieces := [[s[0]] + rest[0]] + rest[1..];
        assert pieces[1..] == rest[1..];
        if |rest| > 1 {
          assert [s[0]] + (rest[0] + [c] + JoinWith(rest[1..], c)) == [s[0]] + rest[0] + [c] + JoinWith(rest[1..], c);
        }
      }
    }
  }

  lemma {:induction false} DoubleSlashLeavesEmptyPiece(s: string)
    requires HasDoubleSlash(s)
    ensures "" in SplitOn(s, '/')[1..]
  {
    var i :| 0 <= i < |s| - 1 && s[i] == '/' && s[i + 1] == '/';
    var rest := SplitOn(s[1..], '/');
    if i == 0 {
      assert rest[0] == "";
      assert SplitOn(s, '/')[1] == "";
    } else {
      assert s[1..][i - 1] == '/' && s[1..][i] == '/';
      DoubleSlashLeavesEmptyPiece(s[1..]);
      if s[0] == '/' {
        assert SplitOn(s, '/')[1..] == rest;
      } else {
        assert SplitOn(s, '/')[1..] == rest[1..];
      }
    }
  }

  lemma DotSlashLeavesDot(s: string)
    requires "./" <= s
    ensures SplitOn(s, '/')[0] == "."
  {
    assert s[0] == '.' && s[1] == '/';
    assert s[1..][0] == '/';
    assert SplitOn(s[1..], '/')[0] == "";
    assert ['.'] + "" == ".";
  }

  lemma InTail(pieces: seq<string>, piece: string)
    requires pieces != [] && piece in pieces[1..]
    ensures piece in pieces
  {
  }

  lemma SimplePathIsSafe(p: string)
    requires SimplePath(p)
    ensures PathIsSafe(p) && Posix(p) == p && Parts(p) != []
  {
    var pieces := SplitOn(p, '/');
    FilterAll(pieces, RealPiece());
    JoinSplit(p, '/');
    if HasDoubleSlash(p) {
      DoubleSlashLeavesEmptyPiece(p);
      InTail(pieces, "");
    }
    if "./" <= p {
      DotSlashLeavesDot(p);
    }
    assert pieces[0] in pieces;
  }

  lemma PrefixedPathReads(p: string, prefix: string)
    requires SimplePath(p)
    ensures SafePath(prefix + p, prefix) == Ok(p)
  {
    SimplePathIsSafe(p);
    assert (prefix + p)[|prefix|..] == p;
  }

  // ----- metadata -------------------------------------------------------------------------------------------------

  lemma PlainWord(split: Shell, word: string)
    requires GoodShell(split) && Plain(word)
    ensures OneWord(split, word) == Ok(word)
  {
    assert JoinWith([word], ' ') == word;
  }

  lemma PlainIsStripped(word: string)
    requires Plain(word)
    ensures Strip(word) == word
  {
    assert PlainChar(word[0]) && PlainChar(word[|word| - 1]);
  }

  lemma PrefixedIsPlain(p: string)
    requires Plain(p)
    ensures Plain("a/" + p) && Plain("b/" + p)
  {
  }

  lemma FilePathReads(split: Shell, p: string)
    requires GoodShell(split) && SimplePath(p)
    ensures FilePath(split, "a/" + p, "a/") == Ok(Some(p)) && FilePath(split, "b/" + p, "b/") == Ok(Some(p))
  {
    PrefixedIsPlain(p);
    PlainIsStripped("a/" + p);
    PlainIsStripped("b/" + p);
    PlainWord(split, "a/" + p);
    PlainWord(split, "b/" + p);
    PrefixedPathReads(p, "a/");
    PrefixedPathReads(p, "b/");
    assert ("a/" + p)[0] == 'a' && ("b/" + p)[0] == 'b' && "/dev/null"[0] == '/';
  }

  lemma NullPathReads(split: Shell, prefix: string)
    requires GoodShell(split)
    ensures FilePath(split, "/dev/null", prefix) == Ok(None)
  {
    assert Plain("/dev/null");
    PlainIsStripped("/dev/null");
    PlainWord(split, "/dev/null");
  }

  lemma RenamePathReads(split: Shell, p: string)
    requires GoodShell(split) && SimplePath(p)
    ensures RenamePath(split, p) == Ok(Some(p))
  {
    PlainWord(split, p);
    assert "" + p == p;
    PrefixedPathReads(p, "");
  }

  lemma FileKinds(text: string)
    ensures KindOf("--- " + text) == OldFile(text) && KindOf("+++ " + text) == NewFile(text)
  {
    assert ("--- " + text)[4..] == text && ("+++ " + text)[4..] == text;
    assert ("+++ " + text)[0] == '+' && "--- "[0] == '-';
  }

  lemma RenameFromKind(text: string)
    ensures KindOf("rename from " + text) == RenameFrom(text)
  {
    var line := "rename from " + text;
    assert line[12..] == text;
    assert line[0] == 'r' && "--- "[0] == '-' && "+++ "[0] == '+';
  }

  lemma RenameToKind(text: string)
    ensures KindOf("rename to " + text) == RenameTo(text)
  {
    var line := "rename to " + text;
    assert line[10..] == text;
    assert line[0] == 'r' && "--- "[0] == '-' && "+++ "[0] == '+';
    assert line[7] == 't' && "rename from "[7] == 'f';
  }

  lemma ModeKinds()
    ensures KindOf("new file mode 100644") == Known && KindOf("deleted file mode 100644") == Known
  {
    assert "--- "[0] == '-' && "+++ "[0] == '+' && "rename from "[0] == 'r' && "rename to "[0] == 'r' && "Binary files "[0] == 'B';
    assert "GIT binary patch"[0] == 'G' && "new file mode 100644"[0] == 'n' && "deleted file mode 100644"[0] == 'd';
    assert "new file mode " <= "new file mode 100644" && "deleted file mode " <= "deleted file mode 100644";
  }

  lemma NotedFirst(split: Shell, m: Metadata, line: string, rest: seq<string>, lines: seq<string>, m': Metadata)
    requires lines == [line] + rest && Noted(split, m, KindOf(line)) == Ok(m')
    ensures AllNoted(split, m, lines) == AllNoted(split, m', rest)
  {
    assert lines[1..] == rest;
  }

  /** What the metadata of an edit leaves in the loop's variables. */
  function MetadataOf(e: Edit): Metadata {
    match e
    case Add(p, _) => Metadata(None, Some(p), None, None, false, false, true, true)
    case Delete(p, _) => Metadata(Some(p), None, None, None, false, false, true, true)
    case Modify(p, _) => Metadata(Some(p), Some(p), None, None, false, false, true, true)
    case Rename(s, p, hunks) => Metadata(Some(s), Some(p), Some(s), Some(p), false, false, hunks != [], hunks != [])
  }

  lemma FileLinesNoted(split: Shell, m: Metadata, oldText: string, newText: string, olds: Option<string>, news: Option<string>)
    requires FilePath(split, oldText, "a/") == Ok(olds) && FilePath(split, newText, "b/") == Ok(news)
    ensures AllNoted(split, m, FileLines(oldText, newText))
            == Ok(m.(oldPath := olds, oldSeen := true, newPath := news, newSeen := true))
  {
    FileKinds(oldText);
    FileKinds(newText);
    var m1 := m.(oldPath := olds, oldSeen := true);
    NotedFirst(split, m, "--- " + oldText, ["+++ " + newText], FileLines(oldText, newText), m1);
    NotedFirst(split, m1, "+++ " + newText, [], ["+++ " + newText], m1.(newPath := news, newSeen := true));
  }

  lemma ModeLineNoted(split: Shell, m: Metadata, line: string, rest: seq<string>)
    requires KindOf(line) == Known
    ensures AllNoted(split, m, [line] + rest) == AllNoted(split, m, rest)
  {
    NotedFirst(split, m, line, rest, [line] + rest, m);
  }

  lemma RenameLinesNoted(split: Shell, m: Metadata, source: string, path: string, tail: seq<string>)
    requires GoodShell(split) && SimplePath(source) && SimplePath(path)
    ensures AllNoted(split, m, ["rename from " + source] + (["rename to " + path] + tail))
            == AllNoted(split, m.(renameFrom := Some(source), renameTo := Some(path)), tail)
  {
    RenamePathReads(split, source);
    RenamePathReads(split, path);
    RenameFromKind(source);
    RenameToKind(path);
    var m1 := m.(renameFrom := Some(source));
    var rest := ["rename to " + path] + tail;
    NotedFirst(split, m, "rename from " + source, rest, ["rename from " + source] + rest, m1);
    NotedFirst(split, m1, "rename to " + path, tail, rest, m1.(renameTo := Some(path)));
  }

  lemma AddIsNoted(split: Shell, p: string, m: Metadata)
    requires GoodShell(split) && SimplePath(p)
    ensures AllNoted(split, m, ["new file mode 100644"] + FileLines("/dev/null", "b/" + p))
            == Ok(m.(oldPath := None, oldSeen := true, newPath := Some(p), newSeen := true))
  {
    ModeKinds();
    ModeLineNoted(split, m, "new file mode 100644", FileLines("/dev/null", "b/" + p));
    NullPathReads(split, "a/");
    FilePathReads(split, p);
    FileLinesNoted(split, m, "/dev/null", "b/" + p, None, Some(p));
  }

  lemma DeleteIsNoted(split: Shell, p: string, m: Metadata)
    requires GoodShell(split) && SimplePath(p)
    ensures AllNoted(split, m, ["deleted file mode 100644"] + FileLines("a/" + p, "/dev/null"))
            == Ok(m.(oldPath := Some(p), oldSeen := true, newPath := None, newSeen := true))
  {
    ModeKinds();
    ModeLineNoted(split, m, "deleted file mode 100644", FileLines("a/" + p, "/dev/null"));
    NullPathReads(split, "b/");
    FilePathReads(split, p);
    FileLinesNoted(split, m, "a/" + p, "/dev/null", Some(p), None);
  }

  lemma TwoPathsNoted(split: Shell, source: string, path: string, m: Metadata)
    requires GoodShell(split) && SimplePath(source) && SimplePath(path)
    ensures AllNoted(split, m, FileLines("a/" + source, "b/" + path))
            == Ok(m.(oldPath := Some(source), oldSeen := true, newPath := Some(path), newSeen := true))
  {
    FilePathReads(split, source);
    FilePathReads(split, path);
    FileLinesNoted(split, m, "a/" + source, "b/" + path, Some(source), Some(path));
  }

  lemma MetadataIsNoted(split: Shell, e: Edit)
    requires GoodShell(split) && GoodEdit(e)
    ensures AllNoted(split, FreshMetadata((OldName(e), e.path)), MetadataLines(e)) == Ok(MetadataOf(e))
  {
    var m := FreshMetadata((OldName(e), e.path));
    match e
    case Add(p, _) => AddIsNoted(split, p, m);
    case Delete(p, _) => DeleteIsNoted(split, p, m);
    case Modify(p, _) => TwoPathsNoted(split, p, p, m);
    case Rename(source, p, hunks) =>
      var tail := if hunks == [] then [] else FileLines("a/" + source, "b/" + p);
      RenameLinesNoted(split, m, source, p, tail);
      if hunks != [] {
        TwoPathsNoted(split, source, p, m.(renameFrom := Some(source), renameTo := Some(p)));
      }
  }

  // ----- one section ----------------------------------------------------------------------------------------------

  lemma JoinCons(word: string, rest: seq<string>, c: char)
    requires rest != []
    ensures JoinWith([word] + rest, c) == word + [c] + JoinWith(rest, c)
  {
    assert ([word] + rest)[1..] == rest;
  }

  lemma HeaderShape(source: string, path: string) returns (tail: string)
    ensures tail == "a/" + source + " " + ("b/" + path) && HeaderLine(source, path) == "diff --git " + tail
  {
    var a, b := "a/" + source, "b/" + path;
    tail := a + " " + b;
    JoinCons(a, [b], ' ');
    JoinCons("--git", [a] + [b], ' ');
    JoinCons("diff", ["--git"] + ([a] + [b]), ' ');
    assert ["diff", "--git", a, b] == ["diff"] + (["--git"] + ([a] + [b]));
    assert "diff" + [' '] + ("--git" + [' '] + tail) == "diff --git " + tail;
  }

  lemma HeaderIsHead(source: string, path: string)
    requires SimplePath(source) && SimplePath(path)
    ensures DiffHead()(HeaderLine(source, path)) && OneLine(HeaderLine(source, path))
  {
    var tail := HeaderShape(source, path);
    PrefixedIsPlain(source);
    PrefixedIsPlain(path);
  }

  lemma HeaderReads(split: Shell, source: string, path: string)
    requires GoodShell(split) && SimplePath(source) && SimplePath(path)
    ensures HeaderPaths(split, HeaderLine(source, path)) == Ok((source, path))
  {
    var words := ["diff", "--git", "a/" + source, "b/" + path];
    PrefixedIsPlain(source);
    PrefixedIsPlain(path);
    assert Plain("diff") && Plain("--git");
    assert split(JoinWith(words, ' ')) == Some(words);
    PrefixedPathReads(source, "a/");
    PrefixedPathReads(path, "b/");
  }

  /** A line that starts neither a file section nor a hunk. */
  predicate Inner(line: string) {
    !DiffHead()(line) && !HunkHead()(line)
  }

  lemma FirstCharIsInner(line: string)
    requires line != "" && line[0] != '@' && (line[0] != 'd' || "de" <= line)
    ensures Inner(line)
  {
    assert "diff --git "[0] == 'd' && "diff --git "[1] == 'i' && "@@"[0] == '@';
  }

  lemma PathLine(prefix: string, path: string)
    requires OneLine(prefix) && SimplePath(path) && prefix != "" && prefix[0] in {'-', '+', 'r'}
    ensures Inner(prefix + path) && OneLine(prefix + path)
  {
    assert (prefix + path)[0] == prefix[0];
    FirstCharIsInner(prefix + path);
  }

  predicate AllInner(lines: seq<string>) {
    forall line :: line in lines ==> Inner(line) && OneLine(line)
  }

  lemma FileLinesAreInner(oldText: string, newText: string)
    requires Plain(oldText) && Plain(newText)
    ensures AllInner(FileLines(oldText, newText))
  {
    FirstCharIsInner("--- " + oldText);
    FirstCharIsInner("+++ " + newText);
  }

  lemma ConsIsInner(line: string, rest: seq<string>)
    requires Inner(line) && OneLine(line) && AllInner(rest)
    ensures AllInner([line] + rest)
  {
  }

  lemma MetadataIsInner(e: Edit)
    requires GoodEdit(e)
    ensures AllInner(MetadataLines(e))
  {
    PrefixedIsPlain(e.path);
    PrefixedIsPlain(OldName(e));
    match e
    case Add(p, _) =>
      FileLinesAreInner("/dev/null", "b/" + p);
      FirstCharIsInner("new file mode 100644");
      ConsIsInner("new file mode 100644", FileLines("/dev/null", "b/" + p));
    case Delete(p, _) =>
      FileLinesAreInner("a/" + p, "/dev/null");
      FirstCharIsInner("deleted file mode 100644");
      ConsIsInner("deleted file mode 100644", FileLines("a/" + p, "/dev/null"));
    case Modify(p, _) =>
      FileLinesAreInner("a/" + p, "b/" + p);
    case Rename(source, p, hunks) =>
      FileLinesAreInner("a/" + source, "b/" + p);
      RenameLinesAreInner(source, p, if hunks == [] then [] else FileLines("a/" + source, "b/" + p));
  }

  lemma RenameLinesAreInner(source: string, path: string, tail: seq<string>)
    requires SimplePath(source) && SimplePath(path) && AllInner(tail)
    ensures AllInner(["rename from " + source] + (["rename to " + path] + tail))
  {
    PathLine("rename to ", path);
    ConsIsInner("rename to " + path, tail);
    PathLine("rename from ", source);
    ConsIsInner("rename from " + source, ["rename to " + path] + tail);
  }

  lemma HunkIsSegment(h: Hunk)
    requires GoodHunk(h)
    ensures IsSegment(HunkLines(h), HunkHead())
    ensures forall line :: line in HunkLines(h) ==> !DiffHead()(line) && OneLine(line)
  {
    var header := HunkHeader(h);
    assert "@@" <= header && header[0] == '@';
    assert "diff --git "[0] == 'd';
    HeaderIsOneLine(h);
    forall i | 0 < i < |HunkLines(h)|
      ensures Inner(HunkLines(h)[i])
    {
      var line := h.body[i - 1];
      assert line in h.body;
      FirstCharIsInner(line);
    }
  }

  lemma DecimalIsOneLine(n: nat)
    ensures OneLine(Decimal(n))
  {
    DecimalCounts(n);
  }

  lemma HeaderIsOneLine(h: Hunk)
    ensures OneLine(HunkHeader(h))
  {
    DecimalIsOneLine(h.oldStart);
    DecimalIsOneLine(h.newStart);
    DecimalIsOneLine(|Filter(h.body, OldSide())|);
    DecimalIsOneLine(|Filter(h.body, NewSide())|);
  }

  lemma {:induction false} HunkSegmentsAre(hunks: seq<Hunk>)
    requires forall h :: h in hunks ==> GoodHunk(h)
    ensures |HunkSegments(hunks)| == |hunks|
    ensures forall k :: 0 <= k < |hunks| ==> HunkSegments(hunks)[k] == HunkLines(hunks[k])
    ensures forall k :: 0 <= k < |hunks| ==> IsSegment(HunkSegments(hunks)[k], HunkHead())
    ensures forall line :: line in Concat(HunkSegments(hunks)) ==> !DiffHead()(line) && OneLine(line)
  {
    if hunks != [] {
      HunkSegmentsAre(hunks[1..]);
      HunkIsSegment(hunks[0]);
      assert forall k :: 0 < k < |hunks| ==> HunkSegments(hunks)[k] == HunkSegments(hunks[1..])[k - 1];
    }
  }

  lemma {:induction false} SegmentFits(segments: seq<seq<string>>, k: nat)
    requires k < |segments|
    ensures |segments[k]| <= |Concat(segments)|
  {
    if k > 0 {
      SegmentFits(segments[1..], k - 1);
    }
  }

  lemma HunksAreCounted(hunks: seq<Hunk>)
    requires (forall h :: h in hunks ==> GoodHunk(h)) && |Concat(HunkSegments(hunks))| <= MAX_DIFF_LINES
    ensures HunkCount(Concat(HunkSegments(hunks))) == Ok(|hunks|)
    ensures Concat(HunkSegments(hunks)) == [] || HunkHead()(Concat(HunkSegments(hunks))[0])
  {
    var segments := HunkSegments(hunks);
    HunkSegmentsAre(hunks);
    SegmentsOfConcat(segments, HunkHead());
    AllCheckedIff(segments);
    forall k | 0 <= k < |segments|
      ensures HunkChecked(segments[k]).None?
    {
      SegmentFits(segments, k);
      HunkIsAccepted(hunks[k]);
    }
  }

  lemma EditIsConcluded(e: Edit, lines: seq<string>, hunks: nat, metadata: nat)
    requires GoodEdit(e) && hunks == |e.hunks| && metadata > 0
    ensures var r := Concluded(lines, OldName(e), e.path, MetadataOf(e), hunks, metadata);
            r.Ok? && Describes(r.value, e)
  {
    SimplePathIsSafe(e.path);
  }

  /** Where the metadata of a rendered section ends. */
  lemma SectionIsCut(metadata: seq<string>, body: seq<string>)
    requires AllInner(metadata) && (body == [] || HunkHead()(body[0]))
    ensures var tail := metadata + body; var n := UntilHead(tail, HunkHead());
            n == |metadata| && tail[..n] == metadata && tail[n..] == body
  {
    var tail := metadata + body;
    assert forall i :: 0 <= i < |metadata| ==> tail[i] == metadata[i] && metadata[i] in metadata;
    UntilHeadIs(tail, HunkHead(), |metadata|);
    assert tail[..|metadata|] == metadata && tail[|metadata|..] == body;
  }

  lemma SectionParsedFrom(split: Shell, lines: seq<string>, source: string, path: string,
                          metadata: seq<string>, body: seq<string>, m: Metadata, hunks: nat)
    requires lines != [] && lines[1..] == metadata + body && HeaderPaths(split, lines[0]) == Ok((source, path))
    requires AllInner(metadata) && (body == [] || HunkHead()(body[0]))
    requires AllNoted(split, FreshMetadata((source, path)), metadata) == Ok(m) && HunkCount(body) == Ok(hunks)
    ensures SectionParsed(split, lines) == Concluded(lines, source, path, m, hunks, |metadata|)
  {
    SectionIsCut(metadata, body);
  }

  /** The rendered section of one edit parses to a change that describes it. */
  lemma SectionReadsBack(split: Shell, e: Edit)
    requires GoodShell(split) && GoodEdit(e) && |SectionLines(e)| <= MAX_DIFF_LINES
    ensures SectionParsed(split, SectionLines(e)).Ok? && Describes(SectionParsed(split, SectionLines(e)).value, e)
  {
    var metadata, body := MetadataLines(e), Concat(HunkSegments(e.hunks));
    assert SectionLines(e)[1..] == metadata + body;
    HeaderReads(split, OldName(e), e.path);
    MetadataIsInner(e);
    MetadataIsNoted(split, e);
    HunksAreCounted(e.hunks);
    SectionParsedFrom(split, SectionLines(e), OldName(e), e.path, metadata, body, MetadataOf(e), |e.hunks|);
    EditIsConcluded(e, SectionLines(e), |e.hunks|, |metadata|);
  }

  lemma SectionIsSegment(e: Edit)
    requires GoodEdit(e)
    ensures IsSegment(SectionLines(e), DiffHead())
    ensures forall line :: line in SectionLines(e) ==> OneLine(line)
  {
    var metadata, body := MetadataLines(e), Concat(HunkSegments(e.hunks));
    HeaderIsHead(OldName(e), e.path);
    MetadataIsInner(e);
    HunkSegmentsAre(e.hunks);
    forall i | 0 < i < |SectionLines(e)|
      ensures !DiffHead()(SectionLines(e)[i])
    {
      assert SectionLines(e)[i] in metadata + body;
    }
  }

  // ----- the round trip ---------------------------------------------------------------------------------------------

  lemma {:induction false} SectionsAre(edits: seq<Edit>)
    requires forall e :: e in edits ==> GoodEdit(e)
    ensures |Sections(edits)| == |edits| && forall k :: 0 <= k < |edits| ==> Sections(edits)[k] == SectionLines(edits[k])
    ensures forall k :: 0 <= k < |edits| ==> IsSegment(Sections(edits)[k], DiffHead())
    ensures forall line :: line in Concat(Sections(edits)) ==> OneLine(line)
  {
    if edits != [] {
      SectionsAre(edits[1..]);
      SectionIsSegment(edits[0]);
      assert forall k :: 0 < k < |edits| ==> Sections(edits)[k] == Sections(edits[1..])[k - 1];
    }
  }

  /** The rendered text is readable and its lines are cut into the rendered sections again. */
  lemma RenderedIsReadable(edits: seq<Edit>)
    requires edits != [] && |edits| <= MAX_DIFF_FILES && forall e :: e in edits ==> GoodEdit(e)
    requires |Rendered(edits)| <= MAX_DIFF_CHARS && LinesWithinLimits(Concat(Sections(edits)))
    ensures Readable(Rendered(edits)) && Segments(SplitLines(Unix(Rendered(edits))), DiffHead()) == Sections(edits)
  {
    var sections, lines := Sections(edits), Concat(Sections(edits));
    SectionsAre(edits);
    TextSplitsBack(lines);
    TextIsClean(lines);
    UnixOf(Rendered(edits));
    SegmentsOfConcat(sections, DiffHead());
    SegmentFits(sections, 0);
  }

  lemma SectionsReadBack(split: Shell, edits: seq<Edit>)
    requires GoodShell(split) && forall e :: e in edits ==> GoodEdit(e)
    requires |Concat(Sections(edits))| <= MAX_DIFF_LINES
    ensures var r := AllParsed(split, Sections(edits));
            r.Ok? && |r.value| == |edits| && forall k :: 0 <= k < |edits| ==> Describes(r.value[k], edits[k])
  {
    var sections := Sections(edits);
    SectionsAre(edits);
    AllParsedIff(split, sections);
    forall k | 0 <= k < |edits|
      ensures SectionParsed(split, sections[k]).Ok? && Describes(SectionParsed(split, sections[k]).value, edits[k])
    {
      SegmentFits(sections, k);
      SectionReadsBack(split, edits[k]);
    }
  }

  /**
   * Rendering any non-empty list of edits, within the parser's bounds, and parsing the text gives one
   * change per edit, in order, with the same path, old path and status.
   */
  lemma RenderedDiffsReadBack(split: Shell, edits: seq<Edit>)
    requires GoodShell(split) && edits != [] && |edits| <= MAX_DIFF_FILES && forall e :: e in edits ==> GoodEdit(e)
    requires |Rendered(edits)| <= MAX_DIFF_CHARS && LinesWithinLimits(Concat(Sections(edits)))
    ensures DiffParsed(split, Rendered(edits)).Ok?
    ensures var changes := DiffParsed(split, Rendered(edits)).value;
            |changes| == |edits| && forall k :: 0 <= k < |edits| ==> Describes(changes[k], edits[k])
  {
    RenderedIsReadable(edits);
    SectionsReadBack(split, edits);
  }
}
