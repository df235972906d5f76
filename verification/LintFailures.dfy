/**
 * Where the shadowed-warning rule of policy-lint is wrong: star blocks with blanks around them, and
 * bracket classes.
 */
module LintFailures {
  import opened Basics
  import opened Matching
  import opened Models
  import opened Evaluator
  import opened Lint

  /** A bare star with surrounding blanks only matches paths that have those blanks. */
  lemma {:induction false} LiteralIsNeeded(g: ClassSemantics, ts: seq<Token>, v: string, c: char)
    requires Match(g, ts, v) && Lit(c) in ts
    ensures c in v
    decreases |ts| + |v|
  {
    if ts[0].Star? && Match(g, ts[1..], v) {
      LiteralIsNeeded(g, ts[1..], v, c);
    } else if ts[0] != Lit(c) {
      LiteralIsNeeded(g, if ts[0].Star? then ts else ts[1..], v[1..], c);
    }
  }

  lemma StripLeftParts(s: string)
    ensures forall i :: 0 <= i < |s| ==> IsSpace(s[i]) || s[i] in StripLeft(s)
    ensures StripLeft(s) != s ==> exists i :: 0 <= i < |s| && IsSpace(s[i])
  {
    if s != "" && IsSpace(s[0]) {
      StripLeftParts(s[1..]);
      forall i | 0 <= i < |s| ensures IsSpace(s[i]) || s[i] in StripLeft(s) {
        if i > 0 {
          assert s[i] == s[1..][i - 1];
        }
      }
    }
  }

  lemma StripRightParts(s: string)
    ensures forall i :: 0 <= i < |s| ==> IsSpace(s[i]) || s[i] in StripRight(s)
    ensures StripRight(s) != s ==> exists i :: 0 <= i < |s| && IsSpace(s[i])
  {
    if s != "" && IsSpace(s[|s| - 1]) {
      StripRightParts(s[..|s| - 1]);
      forall i | 0 <= i < |s| ensures IsSpace(s[i]) || s[i] in StripRight(s) {
        if i < |s| - 1 {
          assert s[i] == s[..|s| - 1][i];
        }
      }
    }
  }

  lemma StarBlockCharacters(block: string)
    requires StarBlock(block)
    ensures forall i :: 0 <= i < |block| ==> IsSpace(block[i]) || block[i] == '*'
    ensures block != Strip(block) ==> exists i :: 0 <= i < |block| && IsSpace(block[i])
  {
    StripLeftParts(block);
    StripRightParts(StripLeft(block));
    if block != Strip(block) && StripLeft(block) == block {
      assert exists i :: 0 <= i < |block| && IsSpace(block[i]);
    }
  }

  // The rule "a `*` or `**` block supersedes every warning" is right for exactly the blocks
  // without surrounding blanks, although lint strips the block before it compares.
  lemma StarRuleIsRightIffUnpadded(g: ClassSemantics, block: string)
    requires StarBlock(block)
    ensures (forall value, warning :: PathMatches(g, value, warning) ==> PathMatches(g, value, block))
            <==> block == Strip(block)
  {
    if block == Strip(block) {
      forall value, warning | PathMatches(g, value, warning) ensures PathMatches(g, value, block) {
        StarMatchesEveryPath(g, value, block);
      }
    } else {
      PaddedStarMissesX(g, block);
      assert Tokens(NormalizePath("x")) == [Lit('x')] by {
        assert NormalizePath("x") == "x";
      }
      assert PathMatches(g, "x", "x");
    }
  }

  lemma PaddedStarMissesX(g: ClassSemantics, block: string)
    requires StarBlock(block) && block != Strip(block)
    ensures !PathMatches(g, "x", block)
  {
    StarBlockCharacters(block);
    var p := NormalizePath(block);
    assert p == block;
    var i :| 0 <= i < |block| && IsSpace(block[i]);
    forall k | 0 <= k < |p| ensures ClassEnd(p[k..]).None? {
      assert p[k..][0] == block[k];
    }
    TokensOfClassless(p);
    assert CharTokens(p)[i] == Lit(block[i]);
    assert forall k :: 0 <= k < |p| ==> p[k] != '/';
    assert "**/"[2] == '/';
    assert NormalizePath("x") == "x";
    if Match(g, Tokens(p), "x") {
      LiteralIsNeeded(g, Tokens(p), "x", block[i]);
    }
  }

  /** A policy with one block and one warning, allowing everything else. */
  function OneRule(section: string, deny: string, block: string, warn: string, warning: string): Policy {
    Policy(Allow, map[RuleName(section, deny) := [block], RuleName(section, warn) := [warning]])
  }

  /** A reported warning that hits where its block does not: deleting it turns warn into allow. */
  lemma LostShellWarning(lib: Library, block: string, warning: string, command: string)
    requires ShadowedShell(warning, [block])
    requires Hits(lib, TextSubject(command), warning) && !Hits(lib, TextSubject(command), block)
    ensures var policy := OneRule("shell", "deny_patterns", block, "warn_patterns", warning);
            Finding("shell.warn_patterns", warning) in ShadowFindings(policy.rules)
            && Evaluated(lib, Shell(command), policy).value.decision == Warn
            && Evaluated(lib, Shell(command), WithoutReported(policy)).value.decision == Allow
  {
    var policy := OneRule("shell", "deny_patterns", block, "warn_patterns", warning);
    var warn := PatternsOf(policy.rules, "shell", "warn_patterns");
    assert warn == [warning] && PatternsOf(policy.rules, "shell", "deny_patterns") == [block];
    assert warning in warn;
    WithoutReportedLookups(policy, "shell", "warn_patterns");
    WithoutReportedLookups(policy, "shell", "deny_patterns");
    assert Filter([warning], ShellKeeps([block])) == [];
    DeletedIsReported(policy, warning);
    ShellDecision(lib, command, policy);
    ShellDecision(lib, command, WithoutReported(policy));
  }

  lemma LostPathWarning(lib: Library, block: string, warning: string, path: string)
    requires ShadowedPath(warning, [block])
    requires Hits(lib, PathSubject(path), warning) && !Hits(lib, PathSubject(path), block)
    ensures var policy := OneRule("files", "deny_paths", block, "warn_paths", warning);
            Finding("files.warn_paths", warning) in ShadowFindings(policy.rules)
            && Evaluated(lib, File(path), policy).value.decision == Warn
            && Evaluated(lib, File(path), WithoutReported(policy)).value.decision == Allow
  {
    var policy := OneRule("files", "deny_paths", block, "warn_paths", warning);
    var warn := PatternsOf(policy.rules, "files", "warn_paths");
    assert warn == [warning] && PatternsOf(policy.rules, "files", "deny_paths") == [block];
    assert warning in warn;
    WithoutReportedLookups(policy, "files", "warn_paths");
    WithoutReportedLookups(policy, "files", "deny_paths");
    assert Filter([warning], PathKeeps([block])) == [];
    DeletedIsReported(policy, warning);
    FileDecision(lib, path, policy);
    FileDecision(lib, path, WithoutReported(policy));
  }

  /** A padded star block: the reported warning was the only rule that caught the path. */
  lemma PaddedStarReportLosesAWarning(lib: Library)
    ensures var policy := OneRule("files", "deny_paths", " * ", "warn_paths", "x");
            Finding("files.warn_paths", "x") in ShadowFindings(policy.rules)
            && Evaluated(lib, File("x"), policy).value.decision == Warn
            && Evaluated(lib, File("x"), WithoutReported(policy)).value.decision == Allow
  {
    assert StripLeft(" * ") == "* " by {
      assert " * "[1..] == "* ";
    }
    assert "* "[..1] == "*";
    var blocks := [" * "];
    assert blocks[0] in blocks && StarBlock(blocks[0]);
    PaddedStarMissesX(lib.inClass, " * ");
    assert NormalizePath("x") == "x";
    assert "x"[1..] == "";
    assert Tokens("x") == [Lit('x')];
    assert Match(lib.inClass, [Lit('x')], "x");
    assert PathMatches(lib.inClass, "x", "x");
    LostPathWarning(lib, " * ", "x", "x");
  }

  /** A block cut out of a bracket class: plain text on its own, half a class in the warning. */
  lemma BracketReportLosesAWarning(lib: Library)
    requires lib.inClass("ab", 'a')
    ensures var policy := OneRule("shell", "deny_patterns", "ab]", "warn_patterns", "[ab]*");
            Finding("shell.warn_patterns", "[ab]*") in ShadowFindings(policy.rules)
            && Evaluated(lib, Shell("a"), policy).value.decision == Warn
            && Evaluated(lib, Shell("a"), WithoutReported(policy)).value.decision == Allow
  {
    var w, b := "[ab]*", "ab]";
    assert Lower(w) == w && Lower(b) == b && Lower("a") == "a";
    assert w[1..4] == b;
    assert OccursAt(w, b, 1);
    var blocks := [b];
    assert blocks[0] in blocks && ShadowedShell(w, blocks);
    assert !Contains("a", b);
    assert w[4] == '*';
    BracketTokens(lib.inClass);
    LostShellWarning(lib, b, w, "a");
  }

  // ----- bracket classes: when a block stands in the warning whatever the classes mean ------------------

  /** The block's characters are consecutive literal tokens of the warning's glob. */
  predicate StandsLiterally(block: string, warning: string) {
    var ts := Tokens("*" + Lower(warning) + "*");
    exists i :: 0 <= i <= |ts| && LiteralAt(Lower(block), ts, i)
  }

  predicate LiteralAt(b: string, ts: seq<Token>, i: nat) {
    i + |b| <= |ts| && forall k :: 0 <= k < |b| ==> ts[i + k] == Lit(b[k])
  }

  lemma LiteralTokensMatch(g: ClassSemantics, ts: seq<Token>, b: string, i: nat, v: string)
    requires LiteralAt(b, ts, i) && !HasWildcard(b) && Match(g, ts, v)
    ensures Contains(v, b)
  {
    var j := i + |b|;
    assert ts[i..j] == CharTokens(b);
    assert ts == ts[..i] + ts[i..j] + ts[j..];
    var y := MatchSplit(g, ts[..i] + ts[i..j], ts[j..], v);
    var x := MatchSplit(g, ts[..i], ts[i..j], v[..y]);
    LiteralLanguage(g, b, v[..y][x..]);
    assert v[..y][x..] == v[x..y];
    assert OccursAt(v, b, x);
  }

  /** One text of a glob's language: every wildcard and class becomes the same other character. */
  function Sample(ts: seq<Token>, other: char): string {
    seq(|ts|, i requires 0 <= i < |ts| => if ts[i].Lit? then ts[i].c else other)
  }

  lemma {:induction false} SampleMatches(g: ClassSemantics, ts: seq<Token>, other: char)
    requires forall body :: g(body, other)
    ensures Match(g, ts, Sample(ts, other))
  {
    if ts != [] {
      SampleMatches(g, ts[1..], other);
      assert Sample(ts, other)[1..] == Sample(ts[1..], other);
      if ts[0].Star? {
        assert Match(g, ts, Sample(ts, other)[1..]);
      }
    }
  }

  lemma {:induction false} LiteralsComeFromPattern(p: string, k: nat)
    requires k < |Tokens(p)| && Tokens(p)[k].Lit?
    ensures Tokens(p)[k].c in p
  {
    if p != "" && k > 0 {
      var rest := if ClassEnd(p).Some? then p[ClassEnd(p).value + 1..] else p[1..];
      assert Tokens(p)[1..] == Tokens(rest);
      LiteralsComeFromPattern(rest, k - 1);
    }
  }

  lemma SampleIsFoldedAscii(warning: string, other: char)
    requires Ascii(warning) && other as int < 128 && LowerChar(other) == other
    ensures var text := Sample(Tokens("*" + Lower(warning) + "*"), other); Ascii(text) && Lower(text) == text
  {
    var p := "*" + Lower(warning) + "*";
    var ts := Tokens(p);
    forall k | 0 <= k < |ts| && ts[k].Lit? ensures LowerChar(ts[k].c) == ts[k].c && ts[k].c as int < 128 {
      LiteralsComeFromPattern(p, k);
      var n :| 0 <= n < |p| && p[n] == ts[k].c;
      if 1 <= n <= |warning| {
        assert p[n] == LowerChar(warning[n - 1]);
      }
    }
  }

  /** For every meaning of classes each ASCII text the warning catches contains the block. */
  ghost predicate AlwaysContained(warning: string, block: string) {
    forall g: ClassSemantics, text :: Ascii(text) && TextMatches(g, text, warning) ==> TextMatches(g, text, block)
  }

  lemma UnlessLiteralLost(warning: string, block: string, other: char) returns (g: ClassSemantics, text: string)
    requires HasWildcard(Lower(warning)) && !HasWildcard(Lower(block)) && Ascii(warning)
    requires other !in Lower(block) && other as int < 128 && LowerChar(other) == other
    requires !StandsLiterally(block, warning)
    ensures Ascii(text) && TextMatches(g, text, warning) && !TextMatches(g, text, block)
  {
    g := (body, c) => c == other;
    var ts, b := Tokens("*" + Lower(warning) + "*"), Lower(block);
    text := Sample(ts, other);
    SampleMatches(g, ts, other);
    SampleIsFoldedAscii(warning, other);
    forall i | 0 <= i <= |text| && OccursAt(text, b, i) ensures false {
      forall k | 0 <= k < |b| ensures ts[i + k] == Lit(b[k]) {
        assert text[i..i + |b|][k] == text[i + k];
      }
      assert LiteralAt(b, ts, i);
    }
  }

  // A plain block covers a warning glob under every meaning of its classes if and only if it stands
  // in the glob literally, and not inside or across a class. Plain: without wildcards and without
  // at least one ASCII character.
  lemma PlainBlockCoversIff(warning: string, block: string, other: char)
    requires HasWildcard(Lower(warning)) && !HasWildcard(Lower(block)) && Ascii(warning)
    requires other !in Lower(block) && other as int < 128 && LowerChar(other) == other
    ensures AlwaysContained(warning, block) <==> StandsLiterally(block, warning)
  {
    if StandsLiterally(block, warning) {
      var ts := Tokens("*" + Lower(warning) + "*");
      var i :| 0 <= i <= |ts| && LiteralAt(Lower(block), ts, i);
      forall g: ClassSemantics, text | Ascii(text) && TextMatches(g, text, warning)
        ensures TextMatches(g, text, block)
      {
        LiteralTokensMatch(g, ts, Lower(block), i, Lower(text));
      }
    } else {
      var g, text := UnlessLiteralLost(warning, block, other);
    }
  }

  lemma {:induction false} LiteralTokensAreText(x: string, t: string)
    requires |t| <= |Tokens(x)| && forall k :: 0 <= k < |t| ==> Tokens(x)[k] == Lit(t[k])
    ensures t <= x
  {
    if t != "" {
      assert Tokens(x)[0] == Lit(t[0]);
      forall k | 0 <= k < |t[1..]| ensures Tokens(x[1..])[k] == Lit(t[1..][k]) {
        assert Tokens(x)[k + 1] == Lit(t[k + 1]);
      }
      LiteralTokensAreText(x[1..], t[1..]);
      assert t == [t[0]] + t[1..] && x == [x[0]] + x[1..];
    }
  }

  lemma TokensTail(x: string) returns (rest: string)
    requires x != ""
    ensures Tokens(x) != [] && Tokens(x)[1..] == Tokens(rest)
  {
    rest := if ClassEnd(x).Some? then x[ClassEnd(x).value + 1..] else x[1..];
  }

  /** The text of a whole bracket class never stands literally: it would have been a class. */
  lemma {:induction false} ClassTextIsNotLiteral(x: string, t: string, i: nat)
    requires t != "" && ClassEnd(t).Some?
    ensures !LiteralAt(t, Tokens(x), i)
    decreases i
  {
    var ts := Tokens(x);
    if LiteralAt(t, ts, i) {
      if i == 0 {
        LiteralTokensAreText(x, t);
        assert ts[0] == Lit(t[0]);
        ClassEndOfPrefix(x, t);
      } else {
        var rest := TokensTail(x);
        assert LiteralAt(t, Tokens(rest), i - 1) by {
          forall k | 0 <= k < |t| ensures Tokens(rest)[i - 1 + k] == Lit(t[k]) {
            assert ts[i + k] == ts[1..][i - 1 + k];
          }
        }
        ClassTextIsNotLiteral(rest, t, i - 1);
      }
    }
  }

  /**
   * So for a class spelled out in a warning glob the report is not justified by the texts of the
   * patterns: it depends on what the classes admit, and under some meaning it is wrong.
   */
  lemma BracketedWarningIsNotCovered(warning: string, block: string, other: char) returns (g: ClassSemantics, text: string)
    requires Ascii(warning) && HasWildcard(Lower(warning)) && !HasWildcard(Lower(block))
    requires Contains(Lower(warning), Lower(block)) && block != "" && ClassEnd(Lower(block)).Some?
    requires other !in Lower(block) && other as int < 128 && LowerChar(other) == other
    ensures ShadowedShell(warning, [block])
    ensures Ascii(text) && TextMatches(g, text, warning) && !TextMatches(g, text, block)
  {
    assert [block][0] in [block];
    forall i | 0 <= i <= |Tokens("*" + Lower(warning) + "*")|
      ensures !LiteralAt(Lower(block), Tokens("*" + Lower(warning) + "*"), i)
    {
      ClassTextIsNotLiteral("*" + Lower(warning) + "*", Lower(block), i);
    }
    g, text := UnlessLiteralLost(warning, block, other);
  }

  /** Under another meaning the same kind of report is right: a class that admits just its own bracket. */
  lemma SelfBracketIsCovered(g: ClassSemantics, text: string)
    requires forall c :: g("[", c) ==> c == '['
    requires TextMatches(g, text, "[[][[]]*")
    ensures TextMatches(g, text, "[[]")
  {
    var w, v := "[[][[]]*", Lower(text);
    assert Lower(w) == w && Lower("[[]") == "[[]";
    assert w[7] == '*';
    var ts := SelfBracketTokens();
    var b := [Class("["), Class("["), Lit(']')];
    assert ts == [Star] + ([] + b + [Star]) + [Star];
    var i, j := MiddlePart(g, [], b, [Star], v);
    var m := v[i..j];
    BracketsThen(g, [Class("["), Lit(']')], m);
    BracketsThen(g, [Lit(']')], m[1..]);
    assert [Lit(']')][1..] == [];
    assert m == [m[0]] + ([m[1]] + m[2..]);
    assert m == "[[]";
    assert OccursAt(v, "[[]", i);
  }

  lemma BracketsThen(g: ClassSemantics, ts: seq<Token>, v: string)
    requires forall c :: g("[", c) ==> c == '['
    requires Match(g, [Class("[")] + ts, v)
    ensures v != "" && v[0] == '[' && Match(g, ts, v[1..])
  {
    assert ([Class("[")] + ts)[1..] == ts;
  }

  lemma SelfBracketTokens() returns (ts: seq<Token>)
    ensures ts == Tokens("*" + "[[][[]]*" + "*") == [Star, Class("["), Class("["), Lit(']'), Star, Star]
  {
    ts := Tokens("*" + "[[][[]]*" + "*");
    var p0, p1, p2 := "]**", "[[]" + "]**", "[[]" + ("[[]" + "]**");
    assert "*" + "[[][[]]*" + "*" == ['*'] + p2;
    TokensOfFirst('*', p2);
    SelfBracketThen(p1, p2);
    SelfBracketThen(p0, p1);
    TrailingTokens();
  }

  lemma SelfBracketThen(rest: string, p: string)
    requires p == "[[]" + rest
    ensures Tokens(p) == [Class("[")] + Tokens(rest)
  {
    assert p[1] == '[' && p[2] == ']';
    assert FindChar(p, ']', 2) == Some(2);
    assert FindChar(p, ']', 1) == Some(2);
    assert p[1..2] == "[" && p[3..] == rest;
  }

  lemma TrailingTokens()
    ensures Tokens("]**") == [Lit(']'), Star, Star]
  {
    assert "]**"[1..] == "**" && "**"[1..] == "*" && "*"[1..] == "";
    assert Tokens("**") == [Star] + Tokens("*");
    assert Tokens("*") == [Star] + Tokens("");
  }

  lemma BracketTokens(g: ClassSemantics)
    requires g("ab", 'a')
    ensures Match(g, Tokens("*" + "[ab]*" + "*"), "a")
  {
    var p := "*[ab]**";
    assert "*" + "[ab]*" + "*" == p;
    assert p[1..] == "[ab]**";
    assert ClassEnd("[ab]**") == Some(3);
    assert "[ab]**"[1..3] == "ab" && "[ab]**"[4..] == "**";
    assert "**"[1..] == "*";
    assert Tokens("**") == [Star] + Tokens("*");
    assert Tokens("*") == [Star];
    var tail := [Star, Star];
    assert Tokens("**") == tail;
    var ts := [Class("ab")] + tail;
    assert Tokens("[ab]**") == ts;
    assert ts[1..] == tail && "a"[1..] == "";
    StarsMatchEverything(g, "");
    assert Match(g, ts, "a");
    assert ([Star] + ts)[1..] == ts;
    assert Match(g, [Star] + ts, "a");
  }
}
