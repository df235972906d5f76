/**
 * What the parser says about paths, and the two ways in which it leaves with an exception that is not
 * its own refusal.
 */
module GitDiffPaths {
  import opened Basics
  import opened GitDiff

  predicate Without(s: string, c: char) {
    c !in s
  }

  lemma {:induction false} PiecesAreWithout(s: string, c: char)
    ensures forall k :: 0 <= k < |SplitOn(s, c)| ==> Without(SplitOn(s, c)[k], c)
  {
    if s != "" {
      PiecesAreWithout(s[1..], c);
      var rest := SplitOn(s[1..], c);
      if s[0] == c {
        assert forall k :: 0 < k < |SplitOn(s, c)| ==> SplitOn(s, c)[k] == rest[k - 1];
      } else {
        assert forall k :: 0 < k < |SplitOn(s, c)| ==> SplitOn(s, c)[k] == rest[k];
      }
    }
  }

  lemma {:induction false} SplitWithout(s: string, c: char)
    requires Without(s, c)
    ensures SplitOn(s, c) == [s]
  {
    if s != "" {
      SplitWithout(s[1..], c);
      assert [s[0]] + s[1..] == s;
    }
  }

  lemma {:induction false} SplitAtFirst(first: string, rest: string, c: char)
    requires Without(first, c)
    ensures SplitOn(first + [c] + rest, c) == [first] + SplitOn(rest, c)
  {
    var s := first + [c] + rest;
    if first == "" {
      assert s[1..] == rest;
    } else {
      assert s[1..] == first[1..] + [c] + rest;
      SplitAtFirst(first[1..], rest, c);
      assert [first[0]] + first[1..] == first;
    }
  }

  lemma {:induction false} SplitJoined(pieces: seq<string>, c: char)
    requires pieces != [] && forall k :: 0 <= k < |pieces| ==> Without(pieces[k], c)
    ensures SplitOn(JoinWith(pieces, c), c) == pieces
  {
    if |pieces| == 1 {
      SplitWithout(pieces[0], c);
    } else {
      SplitJoined(pieces[1..], c);
      SplitAtFirst(pieces[0], JoinWith(pieces[1..], c), c);
    }
  }

  lemma {:induction false} FilterKeeps(xs: seq<string>, test: string -> bool)
    ensures forall k :: 0 <= k < |Filter(xs, test)| ==> test(Filter(xs, test)[k]) && Filter(xs, test)[k] in xs
  {
    if xs != [] {
      FilterKeeps(xs[1..], test);
    }
  }

  lemma PartsOfPosix(value: string)
    requires Parts(value) != []
    ensures Parts(Posix(value)) == Parts(value)
    ensures SplitOn(Posix(value), '/') == Parts(value)
  {
    var parts := Parts(value);
    PiecesAreWithout(value, '/');
    FilterKeeps(SplitOn(value, '/'), RealPiece());
    SplitJoined(parts, '/');
    FilterAll(parts, RealPiece());
  }

  lemma DotHasNoParts()
    ensures Parts(".") == [] && PathIsSafe(".") && Posix(".") == "."
  {
    assert "."[1..] == "" && ['.'] + "" == ".";
    assert SplitOn(".", '/') == ["."];
    assert ["."][1..] == [];
    assert "./"[1] == '/';
  }

  /**
   * Every path the parser reports is relative and canonical: its pieces are non-empty and neither `.`
   * nor `..`; the one exception is the path `.` itself.
   */
  lemma AcceptedPathsAreCanonical(value: string, prefix: string)
    requires SafePath(value, prefix).Ok?
    ensures var path := SafePath(value, prefix).value;
            if Parts(path) == [] then path == "."
            else forall k :: 0 <= k < |SplitOn(path, '/')| ==>
              SplitOn(path, '/')[k] != "" && SplitOn(path, '/')[k] != "." && SplitOn(path, '/')[k] != ".."
  {
    var rest := value[|prefix|..];
    if Parts(rest) == [] {
      DotHasNoParts();
    } else {
      PartsOfPosix(rest);
      FilterKeeps(SplitOn(rest, '/'), RealPiece());
      forall k | 0 <= k < |Parts(rest)|
        ensures Parts(rest)[k] != "" && Parts(rest)[k] != "." && Parts(rest)[k] != ".."
      {
        assert RealPiece()(Parts(rest)[k]);
      }
    }
  }

  /** A section that names no path `.` and has no hunk count beyond int()'s digits never crashes. */
  predicate Tame(split: Shell, section: seq<string>) {
    && section != []
    && (HeaderPaths(split, section[0]).Ok? ==>
          HeaderPaths(split, section[0]).value.0 != "." && HeaderPaths(split, section[0]).value.1 != ".")
    && ModestCounts(section)
  }

  predicate ModestCounts(lines: seq<string>) {
    forall line :: line in lines && HunkRanges(line).Some? ==>
      |HunkRanges(line).value.0| <= MAX_INT_DIGITS && |HunkRanges(line).value.1| <= MAX_INT_DIGITS
  }

  predicate AllTame(split: Shell, sections: seq<seq<string>>) {
    forall section :: section in sections ==> Tame(split, section)
  }

  lemma {:induction false} CheckedWithoutCrash(hunks: seq<seq<string>>)
    requires forall k :: 0 <= k < |hunks| ==> HunkChecked(hunks[k]) != Some(Crashed)
    ensures AllChecked(hunks) != Err(Crashed)
  {
    if hunks != [] {
      assert forall k :: 0 <= k < |hunks[1..]| ==> hunks[1..][k] == hunks[k + 1];
      CheckedWithoutCrash(hunks[1..]);
    }
  }

  lemma {:induction false} InConcat(segments: seq<seq<string>>, k: nat, line: string)
    requires k < |segments| && line in segments[k]
    ensures line in Concat(segments)
  {
    if k > 0 {
      InConcat(segments[1..], k - 1, line);
    }
  }

  lemma TameHunksDoNotCrash(part: seq<string>)
    requires (part == [] || HunkHead()(part[0])) && ModestCounts(part)
    ensures HunkCount(part) != Err(Crashed)
  {
    var hunks := Segments(part, HunkHead());
    SegmentsPartition(part, HunkHead());
    forall k | 0 <= k < |hunks|
      ensures HunkChecked(hunks[k]) != Some(Crashed)
    {
      InConcat(hunks, k, hunks[k][0]);
    }
    CheckedWithoutCrash(hunks);
  }

  lemma HeaderPathsAreReal(split: Shell, line: string)
    requires HeaderPaths(split, line).Ok?
    ensures var paths := HeaderPaths(split, line).value;
            (Parts(paths.0) == [] ==> paths.0 == ".") && (Parts(paths.1) == [] ==> paths.1 == ".")
  {
    var words := split(line).value;
    AcceptedPathsAreCanonical(words[2], "a/");
    AcceptedPathsAreCanonical(words[3], "b/");
  }

  lemma {:induction false} NotingNeverCrashes(split: Shell, m: Metadata, lines: seq<string>)
    ensures AllNoted(split, m, lines) != Err(Crashed)
    decreases |lines|
  {
    if lines != [] {
      var next := Noted(split, m, KindOf(lines[0]));
      if next.Ok? {
        NotingNeverCrashes(split, next.value, lines[1..]);
      }
    }
  }

  lemma ConcludedDoesNotCrash(lines: seq<string>, older: string, newer: string, m: Metadata, hunks: nat, metadata: nat)
    requires Parts(older) != [] && Parts(newer) != []
    ensures Concluded(lines, older, newer, m, hunks, metadata) != Err(Crashed)
  {
  }

  lemma TailIsModest(lines: seq<string>, n: nat)
    requires ModestCounts(lines) && n <= |lines|
    ensures ModestCounts(lines[n..])
  {
  }

  lemma TameSectionsDoNotCrash(split: Shell, section: seq<string>)
    requires Tame(split, section)
    ensures SectionParsed(split, section) != Err(Crashed)
  {
    if HeaderPaths(split, section[0]).Ok? {
      var paths := HeaderPaths(split, section[0]).value;
      var tail := section[1..];
      var first := UntilHead(tail, HunkHead());
      HeaderPathsAreReal(split, section[0]);
      NotingNeverCrashes(split, FreshMetadata(paths), tail[..first]);
      TailIsModest(section, 1);
      TailIsModest(tail, first);
      TameHunksDoNotCrash(tail[first..]);
      if AllNoted(split, FreshMetadata(paths), tail[..first]).Ok? && HunkCount(tail[first..]).Ok? {
        ConcludedDoesNotCrash(section, paths.0, paths.1, AllNoted(split, FreshMetadata(paths), tail[..first]).value,
                              HunkCount(tail[first..]).value, first);
      }
    }
  }

  lemma {:induction false} ParsedWithoutCrash(split: Shell, sections: seq<seq<string>>)
    requires AllTame(split, sections)
    ensures AllParsed(split, sections) != Err(Crashed)
  {
    if sections != [] {
      TameSectionsDoNotCrash(split, sections[0]);
      ParsedWithoutCrash(split, sections[1..]);
      ParseStep(split, sections[0], sections[1..], sections);
    }
  }

  /** Without a path `.` and without oversized counts every refusal is the parser's own. */
  lemma TameDiffsDoNotCrash(split: Shell, raw: string)
    requires AllTame(split, Segments(SplitLines(Unix(raw)), DiffHead()))
    ensures DiffParsed(split, raw) != Err(Crashed)
  {
    ParsedWithoutCrash(split, Segments(SplitLines(Unix(raw)), DiffHead()));
  }

  lemma DotConcludes(lines: seq<string>, metadata: nat)
    requires metadata > 0
    ensures Concluded(lines, ".", ".", FreshMetadata((".", ".")), 0, metadata) == Err(Crashed)
  {
    DotHasNoParts();
  }

  /**
   * The path `.` passes the path check but has no last part to take a category from, so the parser
   * leaves with an IndexError: any header that names `a/.` and `b/.`, with any harmless metadata.
   */
  lemma DotPathCrashes(split: Shell, lines: seq<string>)
    requires |lines| > 1 && split(lines[0]) == Some(["diff", "--git", "a/.", "b/."])
    requires forall i :: 0 < i < |lines| ==> KindOf(lines[i]) == Known && !HunkHead()(lines[i])
    ensures SectionParsed(split, lines) == Err(Crashed)
  {
    DotHasNoParts();
    assert "a/."[2..] == "." && "b/."[2..] == ".";
    assert SafePath("a/.", "a/") == Ok(".") && SafePath("b/.", "b/") == Ok(".");
    var tail := lines[1..];
    UntilHeadIs(tail, HunkHead(), |tail|);
    assert tail[..|tail|] == tail && tail[|tail|..] == [];
    KnownChangesNothing(split, FreshMetadata((".", ".")), tail);
    DotConcludes(lines, |tail|);
  }

  lemma {:induction false} KnownChangesNothing(split: Shell, m: Metadata, lines: seq<string>)
    requires forall i :: 0 <= i < |lines| ==> KindOf(lines[i]) == Known
    ensures AllNoted(split, m, lines) == Ok(m)
  {
    if lines != [] {
      assert forall i :: 0 <= i < |lines[1..]| ==> lines[1..][i] == lines[i + 1];
      KnownChangesNothing(split, m, lines[1..]);
    }
  }
}
