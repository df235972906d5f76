/**
 * What an accepted file section says, read off its lines: paths, renames, status and metadata, and
 * exactly which sections are accepted.
 */
module GitDiffMeaning {
  import opened Basics
  import opened Json
  import opened Matching
  import opened Approval
  import opened GitDiff
  import opened GitDiffPaths
  import opened GitDiffRoundTrip

  // ----- reading the metadata lines ---------------------------------------------------------------------------

  /** The last line that starts with `prefix`. */
  function LastLine(lines: seq<string>, prefix: string): (r: Option<string>)
    ensures r.Some? ==> prefix <= r.value
  {
    if lines == [] then None
    else if prefix <= lines[|lines| - 1] then Some(lines[|lines| - 1])
    else LastLine(lines[..|lines| - 1], prefix)
  }

  /** It stands in the list, and no later line starts like it. */
  lemma {:induction false} LastLineIs(lines: seq<string>, prefix: string)
    ensures LastLine(lines, prefix).None? <==> forall i :: 0 <= i < |lines| ==> !(prefix <= lines[i])
    ensures LastLine(lines, prefix).Some? ==>
              exists i :: 0 <= i < |lines| && lines[i] == LastLine(lines, prefix).value
                          && forall j :: i < j < |lines| ==> !(prefix <= lines[j])
  {
    if lines != [] {
      var init, last := lines[..|lines| - 1], lines[|lines| - 1];
      LastLineIs(init, prefix);
      assert forall i :: 0 <= i < |init| ==> init[i] == lines[i];
      if prefix <= last {
        assert lines[|init|] == LastLine(lines, prefix).value;
      } else if LastLine(lines, prefix).Some? {
        var i :| 0 <= i < |init| && init[i] == LastLine(lines, prefix).value && forall j :: i < j < |init| ==> !(prefix <= init[j]);
        assert lines[i] == LastLine(lines, prefix).value;
        forall j | i < j < |lines|
          ensures !(prefix <= lines[j])
        {
          assert j < |init| ==> init[j] == lines[j];
        }
      }
    }
  }

  predicate IsBinaryMark(line: string) {
    "Binary files " <= line || line == "GIT binary patch"
  }

  /** A line that says nothing the parser knows. */
  predicate IsUnknown(line: string) {
    && line != "" && !IsBinaryMark(line)
    && !("--- " <= line) && !("+++ " <= line) && !("rename from " <= line) && !("rename to " <= line)
    && !("index " <= line) && !("new file mode " <= line) && !("deleted file mode " <= line)
    && !("old mode " <= line) && !("new mode " <= line)
    && !("similarity index " <= line) && !("dissimilarity index " <= line)
  }

  predicate SomeBinaryMark(lines: seq<string>) {
    exists i :: 0 <= i < |lines| && IsBinaryMark(lines[i])
  }

  predicate SomeUnknown(lines: seq<string>) {
    exists i :: 0 <= i < |lines| && IsUnknown(lines[i])
  }

  /** The paths that a metadata line has to name can be read. */
  predicate LineIsReadable(split: Shell, line: string) {
    && ("--- " <= line ==> FilePath(split, line[4..], "a/").Ok?)
    && ("+++ " <= line ==> FilePath(split, line[4..], "b/").Ok?)
    && ("rename from " <= line ==> RenamePath(split, line[12..]).Ok?)
    && ("rename to " <= line ==> RenamePath(split, line[10..]).Ok?)
  }

  /** The path that the last `---` or `+++` line names, or else the one of the header. */
  predicate SideIs(split: Shell, lines: seq<string>, mark: string, prefix: string, header: string, path: Option<string>) {
    match LastLine(lines, mark)
    case None => path == Some(header)
    case Some(line) => 4 <= |line| && FilePath(split, line[4..], prefix) == Ok(path)
  }

  /** The path that the last rename line of a kind names, if there is one. */
  predicate RenameIs(split: Shell, lines: seq<string>, mark: string, path: Option<string>) {
    match LastLine(lines, mark)
    case None => path == None
    case Some(line) => |mark| <= |line| && RenamePath(split, line[|mark|..]) == Ok(path)
  }

  /** The variables of the metadata loop after `lines`. */
  predicate Says(split: Shell, lines: seq<string>, older: string, newer: string, m: Metadata) {
    && SideIs(split, lines, "--- ", "a/", older, m.oldPath) && (m.oldSeen <==> LastLine(lines, "--- ").Some?)
    && SideIs(split, lines, "+++ ", "b/", newer, m.newPath) && (m.newSeen <==> LastLine(lines, "+++ ").Some?)
    && RenameIs(split, lines, "rename from ", m.renameFrom) && RenameIs(split, lines, "rename to ", m.renameTo)
    && (m.binary <==> SomeBinaryMark(lines)) && (m.unknown <==> SomeUnknown(lines))
  }

  /** The marks exclude each other. */
  lemma MarksDiffer(line: string)
    ensures "--- " <= line ==> line != "" && line[0] == '-'
    ensures "+++ " <= line ==> line != "" && line[0] == '+'
    ensures "rename from " <= line ==> |line| > 7 && line[0] == 'r' && line[7] == 'f'
    ensures "rename to " <= line ==> |line| > 7 && line[0] == 'r' && line[7] == 't'
    ensures IsBinaryMark(line) ==> line != "" && line[0] in {'B', 'G'}
    ensures KnownMetadata(line) ==> line != "" && line[0] in {'i', 'n', 'd', 'o', 's'}
  {
    if "rename from " <= line {
      assert line[7] == "rename from "[7];
    }
    if "rename to " <= line {
      assert line[7] == "rename to "[7];
    }
  }

  lemma KindIff(line: string)
    ensures KindOf(line).OldFile? <==> "--- " <= line
    ensures KindOf(line).NewFile? <==> "+++ " <= line
    ensures KindOf(line).RenameFrom? <==> "rename from " <= line
    ensures KindOf(line).RenameTo? <==> "rename to " <= line
    ensures KindOf(line).BinaryMark? <==> IsBinaryMark(line)
    ensures KindOf(line).Unknown? <==> IsUnknown(line)
  {
    MarksDiffer(line);
  }

  lemma LastLineSnoc(init: seq<string>, line: string, prefix: string)
    ensures LastLine(init + [line], prefix) == if prefix <= line then Some(line) else LastLine(init, prefix)
  {
    assert (init + [line])[..|init|] == init;
  }

  lemma SomeSnoc(init: seq<string>, line: string)
    ensures SomeBinaryMark(init + [line]) <==> SomeBinaryMark(init) || IsBinaryMark(line)
    ensures SomeUnknown(init + [line]) <==> SomeUnknown(init) || IsUnknown(line)
  {
    var all := init + [line];
    assert all[|init|] == line;
    assert forall i :: 0 <= i < |init| ==> all[i] == init[i];
    if i :| 0 <= i < |init| && IsBinaryMark(init[i]) {
      assert IsBinaryMark(all[i]);
    }
    if i :| 0 <= i < |init| && IsUnknown(init[i]) {
      assert IsUnknown(all[i]);
    }
  }

  /** One more metadata line. */
  lemma LineIsNoted(split: Shell, init: seq<string>, line: string, older: string, newer: string, m: Metadata)
    requires Says(split, init, older, newer, m)
    ensures Noted(split, m, KindOf(line)).Ok? <==> LineIsReadable(split, line)
    ensures LineIsReadable(split, line) ==> Says(split, init + [line], older, newer, Noted(split, m, KindOf(line)).value)
  {
    KindIff(line);
    MarksDiffer(line);
    SomeSnoc(init, line);
    LastLineSnoc(init, line, "--- ");
    LastLineSnoc(init, line, "+++ ");
    LastLineSnoc(init, line, "rename from ");
    LastLineSnoc(init, line, "rename to ");
  }

  lemma {:induction false} AllNotedSnoc(split: Shell, m: Metadata, init: seq<string>, line: string)
    ensures AllNoted(split, m, init + [line])
            == if AllNoted(split, m, init).Err? then AllNoted(split, m, init) else Noted(split, AllNoted(split, m, init).value, KindOf(line))
    decreases |init|
  {
    if init == [] {
      assert [line][1..] == [];
    } else {
      assert (init + [line])[1..] == init[1..] + [line];
      var next := Noted(split, m, KindOf(init[0]));
      if next.Ok? {
        AllNotedSnoc(split, next.value, init[1..], line);
      }
    }
  }

  predicate AllReadable(split: Shell, lines: seq<string>) {
    forall i :: 0 <= i < |lines| ==> LineIsReadable(split, lines[i])
  }

  /** The metadata loop succeeds exactly on readable lines, and then its variables say what the lines say. */
  lemma {:induction false} MetadataSays(split: Shell, lines: seq<string>, older: string, newer: string) returns (r: Result<Metadata, Refusal>)
    ensures r == AllNoted(split, FreshMetadata((older, newer)), lines)
    ensures r.Ok? <==> AllReadable(split, lines)
    ensures r.Ok? ==> Says(split, lines, older, newer, r.value)
  {
    if lines == [] {
      r := Ok(FreshMetadata((older, newer)));
    } else {
      var init, line := lines[..|lines| - 1], lines[|lines| - 1];
      assert lines == init + [line];
      var before := MetadataSays(split, init, older, newer);
      AllNotedSnoc(split, FreshMetadata((older, newer)), init, line);
      assert forall i :: 0 <= i < |init| ==> lines[i] == init[i];
      r := before;
      if before.Ok? {
        LineIsNoted(split, init, line, older, newer, before.value);
        r := Noted(split, before.value, KindOf(line));
      }
    }
  }

  // ----- hunk headers -------------------------------------------------------------------------------------------

  /** A line number, or a line number and a count, which is one when it is left out. */
  predicate IsRange(range: string, count: string) {
    || (AllDigits(range) && count == "1")
    || (AllDigits(count) && |count| < |range| && range[|range| - |count|..] == count
        && range[|range| - |count| - 1] == ',' && AllDigits(range[..|range| - |count| - 1]))
  }

  /** `@@ -old +new @@`, alone or with a blank and a text after it. */
  predicate IsHunkHeader(line: string, olds: string, news: string, oldRange: string, newRange: string, rest: string) {
    && line == "@@ -" + (oldRange + (" +" + (newRange + (" @@" + rest)))) && (rest == "" || rest[0] == ' ')
    && IsRange(oldRange, olds) && IsRange(newRange, news)
  }

  lemma RangeReads(range: string, count: string, rest: string)
    requires IsRange(range, count) && rest != "" && rest[0] == ' '
    ensures RangeAt(range + rest) == Some((count, rest))
  {
    if AllDigits(range) && count == "1" {
      DigitRunOf(range, rest);
      assert (range + rest)[|range|..] == rest;
    } else {
      var a := range[..|range| - |count| - 1];
      assert range == a + "," + count;
      RangeOf(a, count, rest);
    }
  }

  lemma RangeWasRead(s: string) returns (range: string)
    requires RangeAt(s).Some?
    ensures s == range + RangeAt(s).value.1 && IsRange(range, RangeAt(s).value.0)
  {
    var n := DigitRun(s);
    if n < |s| && s[n] == ',' {
      var m := DigitRun(s[n + 1..]);
      range := s[..n + 1 + m];
      assert range[n + 1..] == s[n + 1..n + 1 + m] && range[..n] == s[..n];
    } else {
      range := s[..n];
    }
  }

  lemma AfterIff(s: string, prefix: string)
    ensures After(s, prefix).Some? ==> s == prefix + After(s, prefix).value
  {
  }

  lemma HunkHeaderReads(line: string, olds: string, news: string, oldRange: string, newRange: string, rest: string)
    requires IsHunkHeader(line, olds, news, oldRange, newRange, rest)
    ensures HunkRanges(line) == Some((olds, news))
  {
    var end := " @@" + rest;
    var right := newRange + end;
    var middle := " +" + right;
    assert end[0] == ' ' && middle[0] == ' ';
    AfterPrefix("@@ -", oldRange + middle);
    RangeReads(oldRange, olds, middle);
    AfterPrefix(" +", right);
    RangeReads(newRange, news, end);
    AfterPrefix(" @@", rest);
  }

  lemma HunkHeaderWasRead(line: string) returns (oldRange: string, newRange: string, rest: string)
    requires HunkRanges(line).Some?
    ensures IsHunkHeader(line, HunkRanges(line).value.0, HunkRanges(line).value.1, oldRange, newRange, rest)
  {
    var start := After(line, "@@ -").value;
    AfterIff(line, "@@ -");
    oldRange := RangeWasRead(start);
    var middle := RangeAt(start).value.1;
    AfterIff(middle, " +");
    var right := After(middle, " +").value;
    newRange := RangeWasRead(right);
    AfterIff(RangeAt(right).value.1, " @@");
    rest := After(RangeAt(right).value.1, " @@").value;
  }

  // A line is a hunk header with two counts if and only if it is written like one.
  lemma HunkHeaderIff(line: string, olds: string, news: string)
    ensures HunkRanges(line) == Some((olds, news))
            <==> exists oldRange, newRange, rest :: IsHunkHeader(line, olds, news, oldRange, newRange, rest)
  {
    if HunkRanges(line) == Some((olds, news)) {
      var oldRange, newRange, rest := HunkHeaderWasRead(line);
    }
    if oldRange, newRange, rest :| IsHunkHeader(line, olds, news, oldRange, newRange, rest) {
      HunkHeaderReads(line, olds, news, oldRange, newRange, rest);
    }
  }

  // ----- categories and contents --------------------------------------------------------------------------------

  lemma {:induction false} LastPiece(s: string, c: char) returns (head: string)
    ensures var pieces := SplitOn(s, c);
            if |pieces| == 1 then s == pieces[0] else s == head + [c] + pieces[|pieces| - 1]
  {
    head := "";
    if s != "" {
      var rest := SplitOn(s[1..], c);
      var tail := LastPiece(s[1..], c);
      assert s == [s[0]] + s[1..];
      if |rest| > 1 {
        head := [s[0]] + tail;
        assert s == head + [c] + rest[|rest| - 1];
      }
    }
  }

  lemma {:induction false} LastPieceOf(head: string, c: char, last: string)
    requires Without(last, c)
    ensures var pieces := SplitOn(head + [c] + last, c); |pieces| > 1 && pieces[|pieces| - 1] == last
  {
    var s := head + [c] + last;
    if head == "" {
      SplitAtFirst("", last, c);
      assert "" + [c] + last == s;
      SplitWithout(last, c);
    } else {
      assert s[1..] == head[1..] + [c] + last;
      LastPieceOf(head[1..], c, last);
    }
  }

  /** A file name with more before the extension than nothing. */
  predicate HasExtension(name: string, extension: string) {
    |extension| + 1 < |name| && name[|name| - |extension| - 1..] == "." + extension
  }

  lemma SameAfterDot(a: string, b: string)
    requires "." + a == "." + b
    ensures a == b
  {
    assert ("." + a)[1..] == a && ("." + b)[1..] == b;
  }

  lemma SuffixEnds(name: string, extension: string)
    requires extension != "" && Suffix(name) == "." + extension
    ensures HasExtension(name, extension)
  {
    var pieces := SplitOn(name, '.');
    var head := LastPiece(name, '.');
    SameAfterDot(pieces[|pieces| - 1], extension);
  }

  lemma ExtensionIsSuffix(name: string, extension: string)
    requires extension != "" && Without(extension, '.') && HasExtension(name, extension)
    ensures Suffix(name) == "." + extension
  {
    var front := name[..|name| - |extension| - 1];
    assert name == front + ['.'] + extension;
    LastPieceOf(front, '.', extension);
  }

  // A name has a suffix if and only if it ends in it and something stands before the dot.
  lemma SuffixIff(name: string, extension: string)
    requires extension != "" && Without(extension, '.')
    ensures Suffix(name) == "." + extension <==> HasExtension(name, extension)
  {
    if Suffix(name) == "." + extension {
      SuffixEnds(name, extension);
    }
    if HasExtension(name, extension) {
      ExtensionIsSuffix(name, extension);
    }
  }

  predicate IsConfigName(name: string) {
    name == ".mcp.json" || name == "mcp.json" || name == "mcp-config.json" || name == "claude_desktop_config.json"
  }

  predicate IsPolicyName(pieces: seq<string>)
    requires pieces != []
  {
    var name := pieces[|pieces| - 1];
    && (HasExtension(name, "yaml") || HasExtension(name, "yml"))
    && ("policies" in pieces || Contains(name, "policy"))
  }

  predicate IsFixturePath(pieces: seq<string>)
    requires pieces != []
  {
    pieces[0] == "examples" || "fixtures" in pieces
  }

  /** The category of a path, by its folded pieces. */
  predicate CategoryReads(path: string, category: Category) {
    var pieces := Parts(Lower(path));
    pieces != [] &&
    match category
    case McpConfig => IsConfigName(pieces[|pieces| - 1])
    case PolicyFile => !IsConfigName(pieces[|pieces| - 1]) && IsPolicyName(pieces)
    case Fixture => !IsConfigName(pieces[|pieces| - 1]) && !IsPolicyName(pieces) && IsFixturePath(pieces)
    case Other => !IsConfigName(pieces[|pieces| - 1]) && !IsPolicyName(pieces) && !IsFixturePath(pieces)
  }

  lemma {:induction false} LoweredPieces(s: string)
    ensures |SplitOn(Lower(s), '/')| == |SplitOn(s, '/')|
    ensures forall k :: 0 <= k < |SplitOn(s, '/')| ==> SplitOn(Lower(s), '/')[k] == Lower(SplitOn(s, '/')[k])
  {
    if s != "" {
      LoweredPieces(s[1..]);
      assert Lower(s)[1..] == Lower(s[1..]) && Lower(s)[0] == LowerChar(s[0]);
      assert LowerChar(s[0]) == '/' <==> s[0] == '/';
      var rest, low := SplitOn(s[1..], '/'), SplitOn(Lower(s[1..]), '/');
      if s[0] != '/' {
        assert Lower([s[0]] + rest[0]) == [LowerChar(s[0])] + Lower(rest[0]);
      }
    }
  }

  lemma FoldingKeepsPieces(path: string)
    requires Parts(path) != []
    ensures Parts(Lower(path)) != []
  {
    var pieces, low := SplitOn(path, '/'), SplitOn(Lower(path), '/');
    LoweredPieces(path);
    PartsHold(path, Parts(path)[0]);
    var k :| 0 <= k < |pieces| && pieces[k] == Parts(path)[0];
    assert low[k] == Lower(pieces[k]) && low[k] in low;
    assert low[k] == "." <==> pieces[k] == ".";
    PartsHold(Lower(path), low[k]);
  }

  lemma LatchNameIsPolicy()
    ensures Contains(".policylatch.yaml", "policy")
  {
    assert OccursAt(".policylatch.yaml", "policy", 1);
  }

  // The category of every path but `.`: a known configuration name; a YAML file in a policies directory or
  // with policy in its name; something below examples or a fixtures directory; or none of these, in this order.
  lemma CategoryIff(path: string)
    requires Parts(path) != []
    ensures CategoryReads(path, CategoryOf(path))
  {
    FoldingKeepsPieces(path);
    YamlIff(Parts(Lower(path))[|Parts(Lower(path))| - 1]);
    LatchNameIsPolicy();
  }

  lemma YamlIff(name: string)
    ensures Suffix(name) == ".yaml" || Suffix(name) == ".yml" <==> HasExtension(name, "yaml") || HasExtension(name, "yml")
  {
    SuffixIff(name, "yaml");
    SuffixIff(name, "yml");
    assert "." + "yaml" == ".yaml" && "." + "yml" == ".yml";
  }

  lemma ContentOf(split: Shell, section: seq<string>)
    requires SectionParsed(split, section).Ok?
    ensures SectionParsed(split, section).value.fingerprint == Fingerprint("git-diff-section-v1", Strings(section))
  {
  }

  // Changes with the same content fingerprint come from the same lines.
  lemma ContentFingerprintBinds(split: Shell, a: seq<string>, b: seq<string>)
    requires SectionParsed(split, a).Ok? && SectionParsed(split, b).Ok?
    requires SectionParsed(split, a).value.fingerprint == SectionParsed(split, b).value.fingerprint
    ensures a == b
  {
    ContentOf(split, a);
    ContentOf(split, b);
    FingerprintInjective("git-diff-section-v1", Strings(a), "git-diff-section-v1", Strings(b));
    StringsBind(a, b);
  }

  // ----- one section --------------------------------------------------------------------------------------------

  /** The lines between the header and the first hunk. */
  function MetadataPart(section: seq<string>): seq<string>
    requires section != []
  {
    section[1..][..UntilHead(section[1..], HunkHead())]
  }

  // The hunks begin at the first line that starts with two at signs, and the metadata is all before it.
  lemma PartsOfSection(section: seq<string>)
    requires section != []
    ensures section == [section[0]] + MetadataPart(section) + HunkPart(section)
    ensures forall i :: 0 <= i < |MetadataPart(section)| ==> !("@@" <= MetadataPart(section)[i])
    ensures HunkPart(section) != [] ==> "@@" <= HunkPart(section)[0]
  {
    var n := UntilHead(section[1..], HunkHead());
    forall i | 0 <= i < n
      ensures !("@@" <= section[1..][i])
    {
      assert !HunkHead()(section[1..][i]);
    }
  }

  /** The header names the two paths. */
  predicate HeaderNames(split: Shell, line: string, older: string, newer: string) {
    && split(line).Some? && |split(line).value| == 4 && split(line).value[..2] == ["diff", "--git"]
    && SafePath(split(line).value[2], "a/") == Ok(older) && SafePath(split(line).value[3], "b/") == Ok(newer)
  }

  predicate Marked(lines: seq<string>, mark: string) {
    LastLine(lines, mark).Some?
  }

  /** The last such line names /dev/null. */
  predicate NamesNull(split: Shell, lines: seq<string>, mark: string, prefix: string)
    requires |mark| == 4
  {
    Marked(lines, mark) && FilePath(split, LastLine(lines, mark).value[4..], prefix) == Ok(None)
  }

  /** Either side of the change is absent or named like the header. */
  predicate FileLinesAgree(split: Shell, lines: seq<string>, older: string, newer: string) {
    && (Marked(lines, "--- ") ==>
          NamesNull(split, lines, "--- ", "a/") || FilePath(split, LastLine(lines, "--- ").value[4..], "a/") == Ok(Some(older)))
    && (Marked(lines, "+++ ") ==>
          NamesNull(split, lines, "+++ ", "b/") || FilePath(split, LastLine(lines, "+++ ").value[4..], "b/") == Ok(Some(newer)))
  }

  predicate RenameLinesAgree(split: Shell, lines: seq<string>, older: string, newer: string) {
    && (Marked(lines, "rename from ") <==> Marked(lines, "rename to "))
    && (Marked(lines, "rename from ") ==>
          && RenamePath(split, LastLine(lines, "rename from ").value[12..]) == Ok(Some(older))
          && RenamePath(split, LastLine(lines, "rename to ").value[10..]) == Ok(Some(newer)))
  }

  /** Metadata that says one thing: readable, in pairs, file lines only before a hunk, and all naming the header's paths. */
  predicate MetadataAgrees(split: Shell, section: seq<string>, older: string, newer: string)
    requires section != []
  {
    var lines := MetadataPart(section);
    && AllReadable(split, lines)
    && (Marked(lines, "--- ") <==> Marked(lines, "+++ ")) && (Marked(lines, "--- ") ==> HunkPart(section) != [])
    && FileLinesAgree(split, lines, older, newer) && RenameLinesAgree(split, lines, older, newer)
    && |section| > 1
  }

  /** How many lines start with a character. */
  function Starting(lines: seq<string>, c: char): nat {
    if lines == [] then 0 else (if lines[0] != "" && lines[0][0] == c then 1 else 0) + Starting(lines[1..], c)
  }

  /** A line of a hunk: of one side, of both, or the mark that a file ends without a newline. */
  predicate IsBodyLine(line: string) {
    "\\ No newline at end of file" <= line || (line != "" && (line[0] == ' ' || line[0] == '-' || line[0] == '+'))
  }

  /** A hunk whose header declares as many old and new lines as follow it, in counts that can be converted. */
  predicate SoundHunk(hunk: seq<string>) {
    && hunk != [] && HunkRanges(hunk[0]).Some?
    && |HunkRanges(hunk[0]).value.0| <= 4300 && |HunkRanges(hunk[0]).value.1| <= 4300
    && (forall i :: 0 < i < |hunk| ==> IsBodyLine(hunk[i]))
    && DigitValue(HunkRanges(hunk[0]).value.0) == Starting(hunk[1..], ' ') + Starting(hunk[1..], '-')
    && DigitValue(HunkRanges(hunk[0]).value.1) == Starting(hunk[1..], ' ') + Starting(hunk[1..], '+')
  }

  lemma {:induction false} SidesAreCounted(lines: seq<string>)
    ensures |Filter(lines, OldSide())| == Starting(lines, ' ') + Starting(lines, '-')
    ensures |Filter(lines, NewSide())| == Starting(lines, ' ') + Starting(lines, '+')
  {
    if lines != [] {
      SidesAreCounted(lines[1..]);
    }
  }

  predicate SoundHunks(section: seq<string>)
    requires section != []
  {
    var hunks := Segments(HunkPart(section), HunkHead());
    forall k :: 0 <= k < |hunks| ==> SoundHunk(hunks[k])
  }

  /** The status that the lines stand for. */
  predicate StatusReads(split: Shell, lines: seq<string>, status: ChangeStatus) {
    match status
    case Binary => SomeBinaryMark(lines)
    case Renamed => !SomeBinaryMark(lines) && Marked(lines, "rename from ")
    case Added => !SomeBinaryMark(lines) && !Marked(lines, "rename from ") && NamesNull(split, lines, "--- ", "a/")
    case Deleted =>
      && !SomeBinaryMark(lines) && !Marked(lines, "rename from ")
      && !NamesNull(split, lines, "--- ", "a/") && NamesNull(split, lines, "+++ ", "b/")
    case Modified =>
      && !SomeBinaryMark(lines) && !Marked(lines, "rename from ")
      && !NamesNull(split, lines, "--- ", "a/") && !NamesNull(split, lines, "+++ ", "b/")
  }

  /** The change of a section: status, paths, and whether something in it was not understood. */
  predicate ChangeReads(split: Shell, section: seq<string>, older: string, newer: string, change: Change)
    requires section != []
  {
    && StatusReads(split, MetadataPart(section), change.status)
    && change.path == (if change.status == Deleted then older else newer)
    && change.oldPath == (if change.status == Renamed then Some(older) else None)
    && (change.unknownMetadata <==> SomeUnknown(MetadataPart(section)))
    && CategoryReads(change.path, change.category)
    && change.fingerprint == Fingerprint("git-diff-section-v1", Strings(section))
  }

  lemma HeaderNamesIff(split: Shell, line: string, older: string, newer: string)
    ensures HeaderPaths(split, line) == Ok((older, newer)) <==> HeaderNames(split, line, older, newer)
  {
    if split(line).Some? && |split(line).value| == 4 {
      var words := split(line).value;
      assert words[..2] == [words[0], words[1]];
    }
  }

  lemma SoundHunkIff(hunk: seq<string>)
    requires IsSegment(hunk, HunkHead())
    ensures HunkChecked(hunk).None? <==> SoundHunk(hunk)
  {
    SidesAreCounted(hunk[1..]);
    BodyLinesIff(hunk);
  }

  lemma BodyLinesIff(hunk: seq<string>)
    requires hunk != []
    ensures (forall line :: line in hunk[1..] ==> BodyLine(line)) <==> forall i :: 0 < i < |hunk| ==> IsBodyLine(hunk[i])
  {
    var body := hunk[1..];
    forall i | 0 < i < |hunk|
      ensures hunk[i] in body && (BodyLine(hunk[i]) <==> IsBodyLine(hunk[i]))
    {
      assert body[i - 1] == hunk[i];
    }
    forall line | line in body
      ensures exists i :: 0 < i < |hunk| && hunk[i] == line
    {
      var k :| 0 <= k < |body| && body[k] == line;
      assert hunk[k + 1] == line;
    }
  }

  lemma SoundHunksIff(section: seq<string>)
    requires section != []
    ensures HunkCount(HunkPart(section)).Ok? <==> SoundHunks(section)
    ensures HunkCount(HunkPart(section)).Ok? ==> (HunkCount(HunkPart(section)).value > 0 <==> HunkPart(section) != [])
  {
    var part := HunkPart(section);
    var hunks := Segments(part, HunkHead());
    SegmentsPartition(part, HunkHead());
    AllCheckedIff(hunks);
    forall k | 0 <= k < |hunks|
      ensures HunkChecked(hunks[k]).None? <==> SoundHunk(hunks[k])
    {
      SoundHunkIff(hunks[k]);
    }
  }

  lemma LinesOfSection(section: seq<string>)
    requires section != []
    ensures |MetadataPart(section)| == UntilHead(section[1..], HunkHead())
    ensures |section| > 1 <==> MetadataPart(section) != [] || HunkPart(section) != []
  {
  }

  lemma NoLastLine(lines: seq<string>, prefix: string)
    requires LastLine(lines, prefix).Some?
    ensures lines != []
  {
  }

  lemma BinaryHasLines(lines: seq<string>)
    requires SomeBinaryMark(lines)
    ensures lines != []
  {
  }

  lemma SidesAgreeIff(split: Shell, lines: seq<string>, older: string, newer: string, m: Metadata)
    requires Says(split, lines, older, newer, m)
    ensures FileLinesAgree(split, lines, older, newer)
            <==> (m.oldPath.None? || m.oldPath == Some(older)) && (m.newPath.None? || m.newPath == Some(newer))
  {
  }

  lemma RenamePathIsSome(split: Shell, text: string)
    ensures RenamePath(split, text).Ok? ==> RenamePath(split, text).value.Some?
  {
  }

  lemma RenamesAgreeIff(split: Shell, lines: seq<string>, older: string, newer: string, m: Metadata)
    requires Says(split, lines, older, newer, m)
    ensures m.renameFrom.Some? <==> Marked(lines, "rename from ")
    ensures m.renameTo.Some? <==> Marked(lines, "rename to ")
    ensures RenameLinesAgree(split, lines, older, newer)
            <==> m.renameFrom.None? == m.renameTo.None? && (m.renameFrom.Some? ==> m.renameFrom == Some(older) && m.renameTo == Some(newer))
  {
    if Marked(lines, "rename from ") {
      RenamePathIsSome(split, LastLine(lines, "rename from ").value[12..]);
    }
    if Marked(lines, "rename to ") {
      RenamePathIsSome(split, LastLine(lines, "rename to ").value[10..]);
    }
  }

  /** What the checks across header, metadata and hunks amount to. */
  lemma ConsistentIff(split: Shell, section: seq<string>, older: string, newer: string, m: Metadata, hunks: nat)
    requires section != [] && Says(split, MetadataPart(section), older, newer, m) && AllReadable(split, MetadataPart(section))
    requires hunks > 0 <==> HunkPart(section) != []
    ensures Consistent(older, newer, m, hunks, |MetadataPart(section)|) <==> MetadataAgrees(split, section, older, newer)
  {
    var lines := MetadataPart(section);
    LinesOfSection(section);
    SidesAgreeIff(split, lines, older, newer, m);
    RenamesAgreeIff(split, lines, older, newer, m);
    if LastLine(lines, "rename from ").Some? {
      NoLastLine(lines, "rename from ");
    }
    if SomeBinaryMark(lines) {
      BinaryHasLines(lines);
    }
  }

  lemma StatusIff(split: Shell, lines: seq<string>, older: string, newer: string, m: Metadata, status: ChangeStatus)
    requires Says(split, lines, older, newer, m)
    ensures StatusOf(m) == status <==> StatusReads(split, lines, status)
  {
    RenamesAgreeIff(split, lines, older, newer, m);
  }

  /** The path to report is not `.`. */
  predicate ReportsAPath(split: Shell, section: seq<string>, older: string, newer: string)
    requires section != []
  {
    (if StatusReads(split, MetadataPart(section), Deleted) then older else newer) != "."
  }

  predicate Stands(split: Shell, section: seq<string>, older: string, newer: string)
    requires section != []
  {
    && HeaderNames(split, section[0], older, newer) && MetadataAgrees(split, section, older, newer)
    && SoundHunks(section) && ReportsAPath(split, section, older, newer)
  }

  lemma NamedPathsAreReal(split: Shell, line: string, older: string, newer: string)
    requires HeaderNames(split, line, older, newer)
    ensures (Parts(older) == [] <==> older == ".") && (Parts(newer) == [] <==> newer == ".")
  {
    HeaderNamesIff(split, line, older, newer);
    HeaderPathsAreReal(split, line);
    DotHasNoParts();
  }

  lemma ConcludedReads(split: Shell, section: seq<string>, older: string, newer: string, m: Metadata, hunks: nat)
    requires section != [] && HeaderNames(split, section[0], older, newer)
    requires Says(split, MetadataPart(section), older, newer, m) && AllReadable(split, MetadataPart(section))
    requires hunks > 0 <==> HunkPart(section) != []
    ensures var r := Concluded(section, older, newer, m, hunks, |MetadataPart(section)|);
            && (r.Ok? <==> MetadataAgrees(split, section, older, newer) && ReportsAPath(split, section, older, newer))
            && (r.Ok? ==> ChangeReads(split, section, older, newer, r.value))
  {
    ConsistentIff(split, section, older, newer, m, hunks);
    NamedPathsAreReal(split, section[0], older, newer);
    StatusIff(split, MetadataPart(section), older, newer, m, Deleted);
    StatusIff(split, MetadataPart(section), older, newer, m, StatusOf(m));
    if Parts(older) != [] {
      CategoryIff(older);
    }
    if Parts(newer) != [] {
      CategoryIff(newer);
    }
  }

  // A section whose header names two paths is accepted if and only if its metadata lines are readable, come in
  // pairs and name the header's paths, its file lines come with a hunk, every hunk is exact, and something
  // follows the header; the change it then gives has the status and the paths that these lines stand for.
  lemma SectionReads(split: Shell, section: seq<string>, older: string, newer: string)
    requires section != [] && HeaderNames(split, section[0], older, newer)
    ensures SectionParsed(split, section).Ok? <==> Stands(split, section, older, newer)
    ensures SectionParsed(split, section).Ok? ==> ChangeReads(split, section, older, newer, SectionParsed(split, section).value)
  {
    HeaderNamesIff(split, section[0], older, newer);
    var m := MetadataSays(split, MetadataPart(section), older, newer);
    SoundHunksIff(section);
    LinesOfSection(section);
    if m.Ok? && HunkCount(HunkPart(section)).Ok? {
      ConcludedReads(split, section, older, newer, m.value, HunkCount(HunkPart(section)).value);
    }
  }

  ghost predicate SectionStands(split: Shell, section: seq<string>) {
    section != [] && exists older, newer :: Stands(split, section, older, newer)
  }

  lemma SectionIsAcceptedIff(split: Shell, section: seq<string>)
    ensures SectionParsed(split, section).Ok? <==> SectionStands(split, section)
  {
    if SectionParsed(split, section).Ok? {
      var paths := HeaderPaths(split, section[0]).value;
      HeaderNamesIff(split, section[0], paths.0, paths.1);
      SectionReads(split, section, paths.0, paths.1);
    }
    if SectionStands(split, section) {
      var older, newer :| Stands(split, section, older, newer);
      SectionReads(split, section, older, newer);
    }
  }

  /** A change of an accepted diff and the section it comes from. */
  ghost predicate ReadsFrom(split: Shell, section: seq<string>, change: Change) {
    section != [] && exists older, newer :: Stands(split, section, older, newer) && ChangeReads(split, section, older, newer, change)
  }

  /** Two mebibytes of text without bare carriage returns or NULs: bounded lines, a header first, at most 500 files. */
  predicate IsReadable(raw: string) {
    var text := Unix(raw);
    var lines := SplitLines(text);
    && 0 < |raw| <= 2_097_152 && '\r' !in text && 0 as char !in text
    && 0 < |lines| <= 20_000 && (forall i :: 0 <= i < |lines| ==> |lines[i]| <= 65_536)
    && "diff --git " <= lines[0] && |Segments(lines, DiffHead())| <= 500
  }

  ghost predicate AllStand(split: Shell, sections: seq<seq<string>>) {
    forall k :: 0 <= k < |sections| ==> SectionStands(split, sections[k])
  }

  ghost predicate AllReadFrom(split: Shell, sections: seq<seq<string>>, changes: seq<Change>) {
    |changes| == |sections| && forall k :: 0 <= k < |sections| ==> ReadsFrom(split, sections[k], changes[k])
  }

  lemma SectionsRead(split: Shell, sections: seq<seq<string>>)
    ensures AllParsed(split, sections).Ok? <==> AllStand(split, sections)
    ensures AllParsed(split, sections).Ok? ==> AllReadFrom(split, sections, AllParsed(split, sections).value)
  {
    AllParsedIff(split, sections);
    forall k | 0 <= k < |sections|
      ensures SectionParsed(split, sections[k]).Ok? <==> SectionStands(split, sections[k])
    {
      SectionIsAcceptedIff(split, sections[k]);
    }
    if AllParsed(split, sections).Ok? {
      forall k | 0 <= k < |sections|
        ensures ReadsFrom(split, sections[k], AllParsed(split, sections).value[k])
      {
        SectionGivesChange(split, sections[k]);
      }
    }
  }

  // A diff is accepted if and only if its text is readable and each of its sections stands; each change is
  // then the one its section stands for.
  lemma DiffIsAcceptedIff(split: Shell, raw: string)
    ensures var sections := Segments(SplitLines(Unix(raw)), DiffHead());
            && (DiffParsed(split, raw).Ok? <==> IsReadable(raw) && AllStand(split, sections))
            && (DiffParsed(split, raw).Ok? ==> AllReadFrom(split, sections, DiffParsed(split, raw).value))
  {
    ReadableIff(raw);
    SectionsRead(split, Segments(SplitLines(Unix(raw)), DiffHead()));
  }

  lemma SectionGivesChange(split: Shell, section: seq<string>)
    requires SectionParsed(split, section).Ok?
    ensures ReadsFrom(split, section, SectionParsed(split, section).value)
  {
    SectionIsAcceptedIff(split, section);
    var older, newer :| Stands(split, section, older, newer);
    SectionReads(split, section, older, newer);
  }

  lemma ReadableIff(raw: string)
    ensures Readable(raw) <==> IsReadable(raw)
  {
    var lines := SplitLines(Unix(raw));
    assert (forall line :: line in lines ==> |line| <= 65_536) <==> forall i :: 0 <= i < |lines| ==> |lines[i]| <= 65_536;
  }

  // ----- line ends ----------------------------------------------------------------------------------------------

  /** The text with a carriage return before every newline. */
  function Crlf(s: string): string {
    if s == "" then "" else (if s[0] == '\n' then "\r\n" else [s[0]]) + Crlf(s[1..])
  }

  lemma UnixCons(c: char, rest: string)
    ensures c != '\r' ==> Unix([c] + rest) == [c] + Unix(rest)
    ensures Unix("\r\n" + rest) == "\n" + Unix(rest)
  {
    assert ([c] + rest)[1..] == rest;
    assert ("\r\n" + rest)[2..] == rest;
  }

  // Text with either kind of line end reads the same.
  lemma {:induction false} CrlfReadsTheSame(s: string)
    requires '\r' !in s
    ensures Unix(Crlf(s)) == s
  {
    if s != "" {
      CrlfReadsTheSame(s[1..]);
      UnixCons(s[0], Crlf(s[1..]));
      assert s == [s[0]] + s[1..];
    }
  }

  /** A carriage return that no newline follows. */
  predicate BareReturnAt(s: string, i: int) {
    0 <= i < |s| && s[i] == '\r' && (i + 1 == |s| || s[i + 1] != '\n')
  }

  predicate HasBareReturn(s: string) {
    exists i :: 0 <= i < |s| && BareReturnAt(s, i)
  }

  lemma BareReturnLater(s: string, n: nat)
    requires n <= |s| && forall i :: 0 <= i < n ==> !BareReturnAt(s, i)
    ensures HasBareReturn(s) <==> HasBareReturn(s[n..])
  {
    if i :| 0 <= i < |s| && BareReturnAt(s, i) {
      assert BareReturnAt(s[n..], i - n);
    }
    if i :| 0 <= i < |s[n..]| && BareReturnAt(s[n..], i) {
      assert BareReturnAt(s, i + n);
    }
  }

  // A text is refused for its carriage returns if and only if one of them stands alone.
  lemma {:induction false} BareReturnsStay(s: string)
    ensures '\r' in Unix(s) <==> HasBareReturn(s)
  {
    if s != "" {
      if |s| > 1 && s[0] == '\r' && s[1] == '\n' {
        BareReturnsStay(s[2..]);
        BareReturnLater(s, 2);
      } else {
        BareReturnsStay(s[1..]);
        if s[0] == '\r' {
          assert BareReturnAt(s, 0);
        } else {
          BareReturnLater(s, 1);
        }
      }
    }
  }

  // ----- only the last line of a kind counts ------------------------------------------------------------------

  lemma {:induction false} LastLineCons(line: string, lines: seq<string>, prefix: string)
    ensures LastLine([line] + lines, prefix)
            == if LastLine(lines, prefix).Some? then LastLine(lines, prefix) else if prefix <= line then Some(line) else None
  {
    var all := [line] + lines;
    if lines != [] {
      var init := lines[..|lines| - 1];
      assert all[..|all| - 1] == [line] + init;
      LastLineCons(line, init, prefix);
    } else {
      assert all == [line] && [line][..0] == [];
    }
  }

  lemma SomeCons(line: string, lines: seq<string>)
    ensures SomeBinaryMark([line] + lines) <==> IsBinaryMark(line) || SomeBinaryMark(lines)
    ensures SomeUnknown([line] + lines) <==> IsUnknown(line) || SomeUnknown(lines)
  {
    var all := [line] + lines;
    assert all[0] == line && forall i :: 0 <= i < |lines| ==> all[i + 1] == lines[i];
    if i :| 0 <= i < |lines| && IsBinaryMark(lines[i]) {
      assert IsBinaryMark(all[i + 1]);
    }
    if i :| 0 <= i < |lines| && IsUnknown(lines[i]) {
      assert IsUnknown(all[i + 1]);
    }
  }

  /** The section with one more line right after its header. */
  function WithLine(section: seq<string>, line: string): seq<string>
    requires section != []
  {
    [section[0], line] + section[1..]
  }

  lemma WithLineParts(section: seq<string>, line: string) returns (more: seq<string>)
    requires section != [] && !HunkHead()(line)
    ensures more == WithLine(section, line)
    ensures MetadataPart(more) == [line] + MetadataPart(section) && HunkPart(more) == HunkPart(section)
  {
    more := WithLine(section, line);
    assert more[1..] == [line] + section[1..];
    assert more[1..][1..] == section[1..];
    var n := UntilHead(section[1..], HunkHead());
    assert ([line] + section[1..])[..n + 1] == [line] + section[1..][..n];
    assert ([line] + section[1..])[n + 1..] == section[1..][n..];
  }

  /** Two lists of metadata lines that say the same, but for earlier lines of a kind. */
  predicate SaySame(a: seq<string>, b: seq<string>) {
    && LastLine(a, "--- ") == LastLine(b, "--- ") && LastLine(a, "+++ ") == LastLine(b, "+++ ")
    && LastLine(a, "rename from ") == LastLine(b, "rename from ") && LastLine(a, "rename to ") == LastLine(b, "rename to ")
    && SomeBinaryMark(a) == SomeBinaryMark(b) && SomeUnknown(a) == SomeUnknown(b)
  }

  lemma EarlierLineSaysSame(lines: seq<string>, line: string)
    requires Marked(lines, "--- ") && "--- " <= line
    ensures SaySame([line] + lines, lines)
  {
    MarksDiffer(line);
    LastLineCons(line, lines, "--- ");
    LastLineCons(line, lines, "+++ ");
    LastLineCons(line, lines, "rename from ");
    LastLineCons(line, lines, "rename to ");
    SomeCons(line, lines);
  }

  lemma SameMeaning(split: Shell, a: seq<string>, b: seq<string>, older: string, newer: string)
    requires SaySame(a, b)
    ensures FileLinesAgree(split, a, older, newer) == FileLinesAgree(split, b, older, newer)
    ensures RenameLinesAgree(split, a, older, newer) == RenameLinesAgree(split, b, older, newer)
    ensures forall status :: StatusReads(split, a, status) == StatusReads(split, b, status)
  {
  }

  lemma {:induction false} StatusIsOne(split: Shell, lines: seq<string>, a: ChangeStatus, b: ChangeStatus)
    requires StatusReads(split, lines, a) && StatusReads(split, lines, b)
    ensures a == b
  {
  }

  // Earlier `---` lines are forgotten: before the line that counts there may be another one that names any
  // readable path, and the section is accepted all the same, with the same status and path.
  lemma EarlierFileLineIsForgotten(split: Shell, section: seq<string>, older: string, newer: string, line: string)
    requires section != [] && Stands(split, section, older, newer) && Marked(MetadataPart(section), "--- ")
    requires "--- " <= line && LineIsReadable(split, line)
    ensures SectionParsed(split, section).Ok? && SectionParsed(split, WithLine(section, line)).Ok?
    ensures SectionParsed(split, WithLine(section, line)).value.status == SectionParsed(split, section).value.status
    ensures SectionParsed(split, WithLine(section, line)).value.path == SectionParsed(split, section).value.path
  {
    MarksDiffer(line);
    var more := WithLineParts(section, line);
    var lines := MetadataPart(section);
    EarlierLineSaysSame(lines, line);
    SameMeaning(split, [line] + lines, lines, older, newer);
    ReadableCons(split, line, lines);
    assert Stands(split, more, older, newer);
    SectionReads(split, section, older, newer);
    SectionReads(split, more, older, newer);
    StatusIsOne(split, lines, SectionParsed(split, more).value.status, SectionParsed(split, section).value.status);
  }

  lemma ReadableCons(split: Shell, line: string, lines: seq<string>)
    requires LineIsReadable(split, line) && AllReadable(split, lines)
    ensures AllReadable(split, [line] + lines)
  {
  }

  // ----- paths --------------------------------------------------------------------------------------------------

  /** A path of a `---` or `+++` line: one word, `/dev/null` for none. */
  lemma FilePathIff(split: Shell, text: string, prefix: string, path: Option<string>)
    ensures FilePath(split, text, prefix) == Ok(path)
            <==> split(Strip(text)).Some? && |split(Strip(text)).value| == 1
                 && var word := split(Strip(text)).value[0];
                    if word == "/dev/null" then path == None else path.Some? && SafePath(word, prefix) == Ok(path.value)
  {
  }

  /** A path of a rename line: one word without a prefix. */
  lemma RenamePathIff(split: Shell, text: string, path: Option<string>)
    ensures RenamePath(split, text) == Ok(path)
            <==> split(text).Some? && |split(text).value| == 1
                 && path.Some? && SafePath(split(text).value[0], "") == Ok(path.value)
  {
  }

  /** What a path must not have, before it is made canonical. */
  predicate Forbidden(value: string) {
    || value == "" || |value| > 512 || value[0] == '/' || "./" <= value
    || (exists i :: 0 <= i < |value| && value[i] in {0 as char, '\\', ':'})
    || (exists i :: 0 < i < |value| && value[i - 1] == '/' && value[i] == '/')
    || IsSpace(value[0]) || IsSpace(value[|value| - 1])
    || ".." in SplitOn(value, '/')
  }

  lemma PartsHold(value: string, piece: string)
    ensures piece in Parts(value) <==> piece in SplitOn(value, '/') && piece != "" && piece != "."
  {
    FilterMember(SplitOn(value, '/'), RealPiece(), piece);
  }

  // A path is accepted if and only if it has the prefix and the rest is bounded and relative, without `..`,
  // outer blanks, backslash, colon or NUL.
  lemma SafePathIff(value: string, prefix: string)
    ensures SafePath(value, prefix).Ok? <==> prefix <= value && !Forbidden(value[|prefix|..])
  {
    if prefix <= value {
      var rest := value[|prefix|..];
      PartsHold(rest, "..");
      if HasDoubleSlash(rest) {
        var i :| 0 <= i < |rest| - 1 && rest[i] == '/' && rest[i + 1] == '/';
        assert rest[i + 1 - 1] == '/' && rest[i + 1] == '/';
      }
      if i :| 0 < i < |rest| && rest[i - 1] == '/' && rest[i] == '/' {
        assert rest[i - 1] == '/' && rest[i - 1 + 1] == '/';
      }
      if i :| 0 <= i < |rest| && rest[i] in {0 as char, '\\', ':'} {
        assert rest[i] in rest;
      }
    }
  }

  /** The characters of a canonical path were all there before, apart from the path `.`. */
  lemma {:induction false} JoinedChars(pieces: seq<string>, s: string, x: char)
    requires pieces != [] && x in JoinWith(pieces, '/') && x != '/'
    ensures exists k :: 0 <= k < |pieces| && x in pieces[k]
  {
    if |pieces| > 1 && x !in pieces[0] {
      JoinedChars(pieces[1..], s, x);
      var k :| 0 <= k < |pieces[1..]| && x in pieces[1..][k];
      assert x in pieces[k + 1];
    }
  }

  lemma {:induction false} PieceChars(s: string, c: char, piece: string, x: char)
    requires piece in SplitOn(s, c) && x in piece
    ensures x in s
  {
    if s != "" {
      var rest := SplitOn(s[1..], c);
      if s[0] == c {
        PieceChars(s[1..], c, piece, x);
      } else if piece in rest[1..] {
        assert piece in rest;
        PieceChars(s[1..], c, piece, x);
      } else {
        assert piece == [s[0]] + rest[0];
        if x in rest[0] {
          PieceChars(s[1..], c, rest[0], x);
        }
      }
    }
  }

  // Whatever path a section is accepted with stays inside the repository: its pieces are real and none is
  // `..`, and it has no backslash, colon or NUL.
  lemma AcceptedPathsStayInside(value: string, prefix: string, path: string)
    requires SafePath(value, prefix) == Ok(path) && path != "."
    ensures forall k :: 0 <= k < |SplitOn(path, '/')| ==>
              SplitOn(path, '/')[k] != "" && SplitOn(path, '/')[k] != "." && SplitOn(path, '/')[k] != ".."
    ensures 0 as char !in path && '\\' !in path && ':' !in path
  {
    var rest := value[|prefix|..];
    AcceptedPathsAreCanonical(value, prefix);
    if Parts(rest) != [] {
      PartsOfPosix(rest);
      forall x | x in path && x != '/'
        ensures x in rest
      {
        JoinedChars(Parts(rest), rest, x);
        var k :| 0 <= k < |Parts(rest)| && x in Parts(rest)[k];
        PartsHold(rest, Parts(rest)[k]);
        PieceChars(rest, '/', Parts(rest)[k], x);
      }
    }
  }
}
