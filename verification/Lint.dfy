/**
 * The shadowed-warning rule of policy-lint (policy_tooling.py): which warn patterns it reports as
 * "always superseded by a matching deny pattern", and exactly when deleting them is harmless.
 */
module Lint {
  import opened Basics
  import opened Json
  import opened Matching
  import opened Models
  import opened Evaluator
  import opened GlobInclusion

  predicate StarBlock(block: string) {
    Strip(block) == "*" || Strip(block) == "**"
  }

  predicate ShadowedShell(warning: string, deny: seq<string>) {
    exists b :: b in deny && Contains(Lower(warning), Lower(b))
  }

  predicate ShadowedPath(warning: string, deny: seq<string>) {
    exists b :: b in deny && (Lower(b) == Lower(warning) || StarBlock(b))
  }

  function ShellReports(deny: seq<string>): string -> bool {
    w => ShadowedShell(w, deny)
  }

  function PathReports(deny: seq<string>): string -> bool {
    w => ShadowedPath(w, deny)
  }

  function ShellKeeps(deny: seq<string>): string -> bool {
    w => !ShadowedShell(w, deny)
  }

  function PathKeeps(deny: seq<string>): string -> bool {
    w => !ShadowedPath(w, deny)
  }

  datatype Finding = Finding(location: string, matched: string)

  function Located(location: string, ws: seq<string>): seq<Finding> {
    seq(|ws|, i requires 0 <= i < |ws| => Finding(location, ws[i]))
  }

  function ShadowFindings(rules: Rules): seq<Finding> {
    Located("shell.warn_patterns",
            Filter(PatternsOf(rules, "shell", "warn_patterns"), ShellReports(PatternsOf(rules, "shell", "deny_patterns"))))
    + Located("files.warn_paths",
              Filter(PatternsOf(rules, "files", "warn_paths"), PathReports(PatternsOf(rules, "files", "deny_paths"))))
  }

  /** The block is written in the warning at `i`, whatever the case. */
  predicate WrittenAt(w: string, b: string, i: int) {
    0 <= i && i + |b| <= |w| && Lower(w)[i..i + |b|] == Lower(b)
  }

  predicate WrittenIn(w: string, b: string) {
    exists i :: 0 <= i <= |w| && WrittenAt(w, b, i)
  }

  /** A shell warning in which some block is written. */
  predicate ShellIsReported(rules: Rules, w: string) {
    && w in PatternsOf(rules, "shell", "warn_patterns")
    && exists b :: b in PatternsOf(rules, "shell", "deny_patterns") && WrittenIn(w, b)
  }

  /** A path warning equal to some block, whatever the case, or next to a block of one or two stars. */
  predicate PathIsReported(rules: Rules, w: string) {
    && w in PatternsOf(rules, "files", "warn_paths")
    && exists b :: b in PatternsOf(rules, "files", "deny_paths") && (Lower(b) == Lower(w) || Strip(b) == "*" || Strip(b) == "**")
  }

  lemma LocatedHolds(location: string, ws: seq<string>, f: Finding)
    ensures f in Located(location, ws) <==> f.location == location && f.matched in ws
  {
    if f.location == location && f.matched in ws {
      var i :| 0 <= i < |ws| && ws[i] == f.matched;
      assert Located(location, ws)[i] == f;
    }
  }

  lemma ContainsFolded(w: string, b: string)
    ensures Contains(Lower(w), Lower(b)) <==> WrittenIn(w, b)
  {
    if Contains(Lower(w), Lower(b)) {
      var i :| 0 <= i <= |Lower(w)| && OccursAt(Lower(w), Lower(b), i);
      assert WrittenAt(w, b, i);
    }
    if i :| 0 <= i <= |w| && WrittenAt(w, b, i) {
      assert OccursAt(Lower(w), Lower(b), i);
    }
  }

  lemma ShellReportsIff(rules: Rules, w: string)
    ensures w in Filter(PatternsOf(rules, "shell", "warn_patterns"), ShellReports(PatternsOf(rules, "shell", "deny_patterns")))
            <==> ShellIsReported(rules, w)
  {
    var deny := PatternsOf(rules, "shell", "deny_patterns");
    FilterMember(PatternsOf(rules, "shell", "warn_patterns"), ShellReports(deny), w);
    forall b | b in deny
      ensures Contains(Lower(w), Lower(b)) <==> WrittenIn(w, b)
    {
      ContainsFolded(w, b);
    }
  }

  lemma PathReportsIff(rules: Rules, w: string)
    ensures w in Filter(PatternsOf(rules, "files", "warn_paths"), PathReports(PatternsOf(rules, "files", "deny_paths")))
            <==> PathIsReported(rules, w)
  {
    FilterMember(PatternsOf(rules, "files", "warn_paths"), PathReports(PatternsOf(rules, "files", "deny_paths")), w);
  }

  // The rule reports exactly these warnings of both sections, each under its own location.
  lemma ReportedIff(rules: Rules, f: Finding)
    ensures f in ShadowFindings(rules)
            <==> (f.location == "shell.warn_patterns" && ShellIsReported(rules, f.matched))
                 || (f.location == "files.warn_paths" && PathIsReported(rules, f.matched))
  {
    ShellReportsIff(rules, f.matched);
    PathReportsIff(rules, f.matched);
    LocatedHolds("shell.warn_patterns",
                 Filter(PatternsOf(rules, "shell", "warn_patterns"), ShellReports(PatternsOf(rules, "shell", "deny_patterns"))), f);
    LocatedHolds("files.warn_paths",
                 Filter(PatternsOf(rules, "files", "warn_paths"), PathReports(PatternsOf(rules, "files", "deny_paths"))), f);
  }

  method LintShadowedWarnings(rules: Rules) returns (findings: seq<Finding>)
    ensures findings == ShadowFindings(rules)
  {
    findings := [];
    var warnings, deny := PatternsOf(rules, "shell", "warn_patterns"), PatternsOf(rules, "shell", "deny_patterns");
    for i := 0 to |warnings|
      invariant findings == Located("shell.warn_patterns", Filter(warnings[..i], ShellReports(deny)))
    {
      assert warnings[..i + 1] == warnings[..i] + [warnings[i]];
      FilterAppend(warnings[..i], [warnings[i]], ShellReports(deny));
      if ShadowedShell(warnings[i], deny) {
        findings := findings + [Finding("shell.warn_patterns", warnings[i])];
      }
    }
    assert warnings[..|warnings|] == warnings;
    var shell := findings;
    warnings, deny := PatternsOf(rules, "files", "warn_paths"), PatternsOf(rules, "files", "deny_paths");
    for i := 0 to |warnings|
      invariant findings == shell + Located("files.warn_paths", Filter(warnings[..i], PathReports(deny)))
    {
      assert warnings[..i + 1] == warnings[..i] + [warnings[i]];
      FilterAppend(warnings[..i], [warnings[i]], PathReports(deny));
      if ShadowedPath(warnings[i], deny) {
        findings := findings + [Finding("files.warn_paths", warnings[i])];
      }
    }
    assert warnings[..|warnings|] == warnings;
  }

  // ----- deleting what lint reports -----------------------------------------------------------

  function Replace(rules: Rules, section: string, name: string, patterns: seq<string>): Rules {
    if RuleName(section, name) in rules then rules[RuleName(section, name) := patterns] else rules
  }

  /** The policy after deleting every reported warn pattern. */
  function WithoutReported(policy: Policy): Policy {
    var r := policy.rules;
    var shell := Filter(PatternsOf(r, "shell", "warn_patterns"), ShellKeeps(PatternsOf(r, "shell", "deny_patterns")));
    var files := Filter(PatternsOf(r, "files", "warn_paths"), PathKeeps(PatternsOf(r, "files", "deny_paths")));
    Policy(policy.default, Replace(Replace(r, "shell", "warn_patterns", shell), "files", "warn_paths", files))
  }

  lemma WithoutReportedLookups(policy: Policy, section: string, name: string)
    ensures PatternsOf(WithoutReported(policy).rules, section, name) ==
            if section == "shell" && name == "warn_patterns"
            then Filter(PatternsOf(policy.rules, section, name),
                        ShellKeeps(PatternsOf(policy.rules, "shell", "deny_patterns")))
            else if section == "files" && name == "warn_paths"
            then Filter(PatternsOf(policy.rules, section, name),
                        PathKeeps(PatternsOf(policy.rules, "files", "deny_paths")))
            else PatternsOf(policy.rules, section, name)
  {
  }

  // What is deleted is exactly what is reported.
  lemma DeletedIsReported(policy: Policy, warning: string)
    ensures warning in PatternsOf(policy.rules, "shell", "warn_patterns")
            ==> (Finding("shell.warn_patterns", warning) in ShadowFindings(policy.rules)
                 <==> warning !in PatternsOf(WithoutReported(policy).rules, "shell", "warn_patterns"))
    ensures warning in PatternsOf(policy.rules, "files", "warn_paths")
            ==> (Finding("files.warn_paths", warning) in ShadowFindings(policy.rules)
                 <==> warning !in PatternsOf(WithoutReported(policy).rules, "files", "warn_paths"))
  {
    var sd, fd := PatternsOf(policy.rules, "shell", "deny_patterns"), PatternsOf(policy.rules, "files", "deny_paths");
    var sw, fw := PatternsOf(policy.rules, "shell", "warn_patterns"), PatternsOf(policy.rules, "files", "warn_paths");
    WithoutReportedLookups(policy, "shell", "warn_patterns");
    WithoutReportedLookups(policy, "files", "warn_paths");
    FilterMember(sw, ShellKeeps(sd), warning);
    FilterMember(sw, ShellReports(sd), warning);
    FilterMember(fw, PathKeeps(fd), warning);
    FilterMember(fw, PathReports(fd), warning);
    LocatedMember("shell.warn_patterns", Filter(sw, ShellReports(sd)), "files.warn_paths",
                  Filter(fw, PathReports(fd)), warning);
  }

  lemma LocatedMember(l1: string, a: seq<string>, l2: string, b: seq<string>, w: string)
    requires l1 != l2
    ensures Finding(l1, w) in Located(l1, a) + Located(l2, b) <==> w in a
    ensures Finding(l2, w) in Located(l1, a) + Located(l2, b) <==> w in b
  {
    var all := Located(l1, a) + Located(l2, b);
    if w in a {
      var i :| 0 <= i < |a| && a[i] == w;
      assert all[i] == Finding(l1, w);
    }
    if w in b {
      var i :| 0 <= i < |b| && b[i] == w;
      assert all[|a| + i] == Finding(l2, w);
    }
  }

  // ----- when a reported warning is really superseded ---------------------------------------------

  // Deleting a reported warning matters for a text that only this warning catches. Below that is
  // decided for all ASCII texts the validators let through, by the inclusion search on the globs.

  function KeptShell(rules: Rules): seq<string> {
    Filter(PatternsOf(rules, "shell", "warn_patterns"), ShellKeeps(PatternsOf(rules, "shell", "deny_patterns")))
  }

  function KeptPaths(rules: Rules): seq<string> {
    Filter(PatternsOf(rules, "files", "warn_paths"), PathKeeps(PatternsOf(rules, "files", "deny_paths")))
  }

  predicate ReportedShell(rules: Rules, w: string) {
    w in PatternsOf(rules, "shell", "warn_patterns") && ShadowedShell(w, PatternsOf(rules, "shell", "deny_patterns"))
  }

  predicate ReportedPath(rules: Rules, w: string) {
    w in PatternsOf(rules, "files", "warn_paths") && ShadowedPath(w, PatternsOf(rules, "files", "deny_paths"))
  }

  /** The patterns that still catch something after the deletion. */
  function ShellRest(rules: Rules): seq<string> {
    PatternsOf(rules, "shell", "deny_patterns") + KeptShell(rules)
  }

  function PathRest(rules: Rules): seq<string> {
    PatternsOf(rules, "files", "deny_paths") + KeptPaths(rules)
  }

  /** No reported warning is all that catches this command, this path. */
  ghost predicate TextKept(lib: Library, rules: Rules, text: string) {
    forall w :: ReportedShell(rules, w) && Hits(lib, TextSubject(text), w)
                ==> AnyHit(lib, TextSubject(text), ShellRest(rules))
  }

  ghost predicate PathKept(lib: Library, rules: Rules, path: string) {
    forall w :: ReportedPath(rules, w) && Hits(lib, PathSubject(path), w)
                ==> AnyHit(lib, PathSubject(path), PathRest(rules))
  }

  ghost predicate ActionKept(lib: Library, rules: Rules, action: Action) {
    match action
    case Shell(command) => TextKept(lib, rules, command)
    case File(path) => PathKept(lib, rules, path)
    case Network(_) => true
  }

  lemma AnyHitAppend(lib: Library, s: Subject, a: seq<string>, b: seq<string>)
    ensures AnyHit(lib, s, a + b) <==> AnyHit(lib, s, a) || AnyHit(lib, s, b)
  {
    if AnyHit(lib, s, a) {
      var p :| p in a && Hits(lib, s, p);
      assert p in a + b;
    }
    if AnyHit(lib, s, b) {
      var p :| p in b && Hits(lib, s, p);
      assert p in a + b;
    }
  }

  lemma TextKeptIff(lib: Library, rules: Rules, text: string)
    ensures var s := TextSubject(text);
            TextKept(lib, rules, text)
            <==> AnyHit(lib, s, PatternsOf(rules, "shell", "deny_patterns"))
                 || AnyHit(lib, s, PatternsOf(rules, "shell", "warn_patterns")) == AnyHit(lib, s, KeptShell(rules))
  {
    var s, deny, warn := TextSubject(text), PatternsOf(rules, "shell", "deny_patterns"), PatternsOf(rules, "shell", "warn_patterns");
    AnyHitAppend(lib, s, deny, KeptShell(rules));
    forall w ensures w in KeptShell(rules) <==> w in warn && !ShadowedShell(w, deny) {
      FilterMember(warn, ShellKeeps(deny), w);
    }
    if w :| w in warn && Hits(lib, s, w) {
      assert w in KeptShell(rules) || ReportedShell(rules, w);
    }
  }

  lemma PathKeptIff(lib: Library, rules: Rules, path: string)
    ensures var s := PathSubject(path);
            PathKept(lib, rules, path)
            <==> AnyHit(lib, s, PatternsOf(rules, "files", "deny_paths"))
                 || AnyHit(lib, s, PatternsOf(rules, "files", "warn_paths")) == AnyHit(lib, s, KeptPaths(rules))
  {
    var s, deny, warn := PathSubject(path), PatternsOf(rules, "files", "deny_paths"), PatternsOf(rules, "files", "warn_paths");
    AnyHitAppend(lib, s, deny, KeptPaths(rules));
    forall w ensures w in KeptPaths(rules) <==> w in warn && !ShadowedPath(w, deny) {
      FilterMember(warn, PathKeeps(deny), w);
    }
    if w :| w in warn && Hits(lib, s, w) {
      assert w in KeptPaths(rules) || ReportedPath(rules, w);
    }
  }

  // ----- a guard by syntax alone --------------------------------------------------------------------

  /** Reports that need no search: shell globs without classes, path blocks that are equal or bare stars. */
  predicate CleanReports(rules: Rules) {
    && (forall w :: w in PatternsOf(rules, "shell", "warn_patterns") && ReportedShell(rules, w) ==> CleanGlob(w))
    && (forall w :: w in PatternsOf(rules, "files", "warn_paths") && ReportedPath(rules, w)
                    ==> CleanlyBlocked(w, PatternsOf(rules, "files", "deny_paths")))
  }

  predicate CleanGlob(w: string) {
    HasWildcard(Lower(w)) ==> Classless(Lower(w))
  }

  predicate CleanlyBlocked(w: string, deny: seq<string>) {
    exists b :: b in deny && (Lower(b) == Lower(w) || (StarBlock(b) && b == Strip(b)))
  }

  lemma SamePathLanguage(g: ClassSemantics, value: string, a: string, b: string)
    requires Lower(a) == Lower(b)
    ensures PathMatches(g, value, a) == PathMatches(g, value, b)
  {
    assert |a| == |Lower(a)| == |b|;
    forall i | 0 <= i < |a| ensures NormalizePath(a)[i] == NormalizePath(b)[i] {
      assert Lower(a)[i] == Lower(b)[i];
    }
    assert NormalizePath(a) == NormalizePath(b);
  }

  lemma StarMatchesEveryPath(g: ClassSemantics, value: string, block: string)
    requires block == "*" || block == "**"
    ensures PathMatches(g, value, block)
  {
    assert NormalizePath("*") == "*" && NormalizePath("**") == "**";
    assert Tokens("*") == [Star];
    assert Tokens("**") == [Star] + Tokens("**"[1..]);
    assert "**"[1..] == "*";
    assert [Star] + [Star] == [Star, Star];
    StarMatchesEverything(g, NormalizePath(value));
    StarsMatchEverything(g, NormalizePath(value));
  }

  lemma CleanReportsKeepTexts(lib: Library, rules: Rules, text: string)
    requires CleanReports(rules)
    ensures TextKept(lib, rules, text)
  {
    var s, deny := TextSubject(text), PatternsOf(rules, "shell", "deny_patterns");
    AnyHitAppend(lib, s, deny, KeptShell(rules));
    forall w | ReportedShell(rules, w) && Hits(lib, s, w) ensures AnyHit(lib, s, deny) {
      var b :| b in deny && Contains(Lower(w), Lower(b));
      ContainedPatternMatches(lib.inClass, text, w, b);
      assert Hits(lib, s, b);
    }
  }

  lemma CleanReportsKeepPaths(lib: Library, rules: Rules, path: string)
    requires CleanReports(rules)
    ensures PathKept(lib, rules, path)
  {
    var s, deny := PathSubject(path), PatternsOf(rules, "files", "deny_paths");
    AnyHitAppend(lib, s, deny, KeptPaths(rules));
    forall w | ReportedPath(rules, w) && Hits(lib, s, w) ensures AnyHit(lib, s, deny) {
      var b :| b in deny && (Lower(b) == Lower(w) || (StarBlock(b) && b == Strip(b)));
      if Lower(b) == Lower(w) {
        SamePathLanguage(lib.inClass, path, b, w);
      } else {
        StarMatchesEveryPath(lib.inClass, path, b);
      }
      assert Hits(lib, s, b);
    }
  }

  // ----- the exact guard: inclusion of globs ----------------------------------------------------------

  /** Whole-text globs for a text pattern and a path pattern. */
  function TextGlob(pattern: string): Glob {
    var p := Lower(pattern);
    if HasWildcard(p) then Tokens("*" + p + "*") else [Star] + CharTokens(p) + [Star]
  }

  function TextGlobs(patterns: seq<string>): seq<Glob> {
    seq(|patterns|, i requires 0 <= i < |patterns| => TextGlob(patterns[i]))
  }

  function PathGlobs(pattern: string): seq<Glob> {
    var p := NormalizePath(pattern);
    [Tokens(p)] + if "**/" <= p then [Tokens(p[3..])] else []
  }

  function AllPathGlobs(patterns: seq<string>): seq<Glob> {
    if patterns == [] then [] else PathGlobs(patterns[0]) + AllPathGlobs(patterns[1..])
  }

  lemma TextGlobMatches(g: ClassSemantics, value: string, pattern: string)
    ensures TextMatches(g, value, pattern) <==> Match(g, TextGlob(pattern), Lower(value))
  {
    var p, v := Lower(pattern), Lower(value);
    if !HasWildcard(p) {
      if Contains(v, p) {
        var i :| 0 <= i <= |v| && OccursAt(v, p, i);
        LiteralLanguage(g, p, v[i..i + |p|]);
        MatchInside(g, CharTokens(p), v, i, i + |p|);
      }
      if Match(g, TextGlob(pattern), v) {
        var i, j := InsideMatch(g, CharTokens(p), v);
        LiteralLanguage(g, p, v[i..j]);
        assert OccursAt(v, p, i);
      }
    }
  }

  lemma TextHitsAreMatches(lib: Library, text: string, patterns: seq<string>)
    ensures AnyHit(lib, TextSubject(text), patterns) <==> SomeMatches(lib.inClass, TextGlobs(patterns), Lower(text))
  {
    var globs := TextGlobs(patterns);
    forall i | 0 <= i < |patterns|
      ensures Hits(lib, TextSubject(text), patterns[i]) <==> Match(lib.inClass, globs[i], Lower(text))
    {
      TextGlobMatches(lib.inClass, text, patterns[i]);
    }
    if AnyHit(lib, TextSubject(text), patterns) {
      var p :| p in patterns && Hits(lib, TextSubject(text), p);
      var i :| 0 <= i < |patterns| && patterns[i] == p;
      assert Match(lib.inClass, globs[i], Lower(text));
    }
    if SomeMatches(lib.inClass, globs, Lower(text)) {
      var i :| 0 <= i < |globs| && Match(lib.inClass, globs[i], Lower(text));
      assert patterns[i] in patterns;
    }
  }

  lemma SomeMatchesAppend(g: ClassSemantics, a: seq<Glob>, b: seq<Glob>, v: string)
    ensures SomeMatches(g, a + b, v) <==> SomeMatches(g, a, v) || SomeMatches(g, b, v)
  {
    if SomeMatches(g, a, v) {
      var i :| 0 <= i < |a| && Match(g, a[i], v);
      assert (a + b)[i] == a[i];
    }
    if SomeMatches(g, b, v) {
      var i :| 0 <= i < |b| && Match(g, b[i], v);
      assert (a + b)[|a| + i] == b[i];
    }
  }

  lemma PathGlobsMatch(g: ClassSemantics, value: string, pattern: string)
    ensures PathMatches(g, value, pattern) <==> SomeMatches(g, PathGlobs(pattern), NormalizePath(value))
  {
    var p, globs := NormalizePath(pattern), PathGlobs(pattern);
    assert globs[0] == Tokens(p);
    if "**/" <= p {
      assert globs[1] == Tokens(p[3..]);
    }
  }

  lemma {:induction false} PathHitsAreMatches(lib: Library, path: string, patterns: seq<string>)
    ensures AnyHit(lib, PathSubject(path), patterns) <==> SomeMatches(lib.inClass, AllPathGlobs(patterns), NormalizePath(path))
  {
    if patterns != [] {
      PathGlobsMatch(lib.inClass, path, patterns[0]);
      PathHitsAreMatches(lib, path, patterns[1..]);
      SomeMatchesAppend(lib.inClass, PathGlobs(patterns[0]), AllPathGlobs(patterns[1..]), NormalizePath(path));
      AnyHitAppend(lib, PathSubject(path), [patterns[0]], patterns[1..]);
      assert patterns == [patterns[0]] + patterns[1..];
      assert [patterns[0]][0] in [patterns[0]];
    }
  }

  predicate Ascii(s: string) {
    forall i :: 0 <= i < |s| ==> s[i] as int < 128
  }

  predicate FoldedChar(c: char) {
    LowerChar(c) == c
  }

  predicate PathChar(c: char) {
    LowerChar(c) == c && c != '\\'
  }

  function AsciiChars(): seq<char> {
    seq(128, i requires 0 <= i < 128 => i as char)
  }

  /** What the folded text of an ASCII command, of an ASCII path, consists of. */
  function TextAlphabet(): seq<char> {
    Filter(AsciiChars(), FoldedChar)
  }

  function PathAlphabet(): seq<char> {
    Filter(AsciiChars(), PathChar)
  }

  lemma AlphabetsHold(c: char)
    ensures c in TextAlphabet() <==> c as int < 128 && FoldedChar(c)
    ensures c in PathAlphabet() <==> c as int < 128 && PathChar(c)
  {
    FilterMember(AsciiChars(), FoldedChar, c);
    FilterMember(AsciiChars(), PathChar, c);
    if c as int < 128 {
      assert AsciiChars()[c as int] == c;
    }
  }

  function TextSetting(g: ClassSemantics, shapes: set<Shape>): Setting {
    Setting(g, TextAlphabet(), shapes)
  }

  function PathSetting(g: ClassSemantics): Setting {
    Setting(g, PathAlphabet(), NON_BLANK)
  }

  /** Every reported shell warning is covered by the rest, on texts of these shapes. */
  predicate CoveredTexts(g: ClassSemantics, shapes: set<Shape>, rules: Rules) {
    forall w :: w in PatternsOf(rules, "shell", "warn_patterns") && ReportedShell(rules, w)
                ==> TextIncluded(g, shapes, w, ShellRest(rules))
  }

  predicate CoveredPaths(g: ClassSemantics, rules: Rules) {
    forall w :: w in PatternsOf(rules, "files", "warn_paths") && ReportedPath(rules, w) ==> PathIncluded(g, w, PathRest(rules))
  }

  predicate TextIncluded(g: ClassSemantics, shapes: set<Shape>, w: string, rest: seq<string>) {
    Included(TextSetting(g, shapes), TextGlob(w), TextGlobs(rest))
  }

  predicate PathIncluded(g: ClassSemantics, w: string, rest: seq<string>) {
    forall q :: q in PathGlobs(w) ==> Included(PathSetting(g), q, AllPathGlobs(rest))
  }

  /** What to check before deleting: every reported warning is included in what stays. */
  predicate CoveredReports(g: ClassSemantics, rules: Rules) {
    CoveredTexts(g, NON_BLANK, rules) && CoveredPaths(g, rules)
  }

  predicate AsciiText(shapes: set<Shape>, text: string) {
    Ascii(text) && ShapeAfter(Empty, text) in shapes
  }

  lemma FoldingKeepsBlanks(c: char)
    ensures IsSpace(LowerChar(c)) == IsSpace(c) && FoldedChar(LowerChar(c)) && (c as int < 128 ==> LowerChar(c) as int < 128)
  {
  }

  lemma FoldedCounts(g: ClassSemantics, shapes: set<Shape>, text: string)
    requires AsciiText(shapes, text)
    ensures Counts(TextSetting(g, shapes), Empty, Lower(text))
  {
    var v := Lower(text);
    forall i | 0 <= i < |v| ensures v[i] in TextAlphabet() && IsSpace(text[i]) == IsSpace(v[i]) {
      FoldingKeepsBlanks(text[i]);
      AlphabetsHold(v[i]);
    }
    ShapeIgnores(Empty, text, v);
  }

  lemma CountedIsFolded(g: ClassSemantics, shapes: set<Shape>, v: string)
    requires Counts(TextSetting(g, shapes), Empty, v)
    ensures AsciiText(shapes, v) && Lower(v) == v
  {
    forall i | 0 <= i < |v| ensures v[i] as int < 128 && FoldedChar(v[i]) {
      AlphabetsHold(v[i]);
    }
  }

  lemma NormalizingKeepsBlanks(path: string, i: nat)
    requires i < |path| && path[i] as int < 128
    ensures var c := NormalizePath(path)[i]; IsSpace(path[i]) == IsSpace(c) && c as int < 128 && PathChar(c)
  {
    FoldingKeepsBlanks(path[i]);
  }

  lemma NormalizedCounts(g: ClassSemantics, path: string)
    requires AsciiText(NON_BLANK, path)
    ensures Counts(PathSetting(g), Empty, NormalizePath(path))
  {
    var v := NormalizePath(path);
    forall i | 0 <= i < |v| ensures v[i] in PathAlphabet() && IsSpace(path[i]) == IsSpace(v[i]) {
      NormalizingKeepsBlanks(path, i);
      AlphabetsHold(v[i]);
    }
    ShapeIgnores(Empty, path, v);
  }

  lemma CountedIsNormalized(g: ClassSemantics, v: string)
    requires Counts(PathSetting(g), Empty, v)
    ensures AsciiText(NON_BLANK, v) && NormalizePath(v) == v
  {
    forall i | 0 <= i < |v| ensures v[i] as int < 128 && PathChar(v[i]) {
      AlphabetsHold(v[i]);
    }
  }

  ghost predicate TextAlwaysCaught(lib: Library, shapes: set<Shape>, w: string, rest: seq<string>) {
    forall text :: AsciiText(shapes, text) && Hits(lib, TextSubject(text), w) ==> AnyHit(lib, TextSubject(text), rest)
  }

  ghost predicate PathAlwaysCaught(lib: Library, w: string, rest: seq<string>) {
    forall path :: AsciiText(NON_BLANK, path) && Hits(lib, PathSubject(path), w) ==> AnyHit(lib, PathSubject(path), rest)
  }

  /** The search over one warning says whether every text it catches stays caught. */
  lemma WarningIncludedIff(lib: Library, shapes: set<Shape>, w: string, rest: seq<string>)
    ensures TextIncluded(lib.inClass, shapes, w, rest) <==> TextAlwaysCaught(lib, shapes, w, rest)
  {
    var k := TextSetting(lib.inClass, shapes);
    IncludedIff(k, TextGlob(w), TextGlobs(rest));
    if Included(k, TextGlob(w), TextGlobs(rest)) {
      forall text | AsciiText(shapes, text) && Hits(lib, TextSubject(text), w) ensures AnyHit(lib, TextSubject(text), rest) {
        FoldedCounts(lib.inClass, shapes, text);
        TextGlobMatches(lib.inClass, text, w);
        TextHitsAreMatches(lib, text, rest);
      }
    } else {
      var v :| Counts(k, Empty, v) && Match(lib.inClass, TextGlob(w), v) && !SomeMatches(lib.inClass, TextGlobs(rest), v);
      CountedIsFolded(lib.inClass, shapes, v);
      TextGlobMatches(lib.inClass, v, w);
      TextHitsAreMatches(lib, v, rest);
      assert Hits(lib, TextSubject(v), w);
    }
  }

  lemma PathWarningIncludedIff(lib: Library, w: string, rest: seq<string>)
    ensures PathIncluded(lib.inClass, w, rest) <==> PathAlwaysCaught(lib, w, rest)
  {
    var g, k, right := lib.inClass, PathSetting(lib.inClass), AllPathGlobs(rest);
    if PathIncluded(g, w, rest) {
      forall path | AsciiText(NON_BLANK, path) && Hits(lib, PathSubject(path), w) ensures AnyHit(lib, PathSubject(path), rest) {
        NormalizedCounts(g, path);
        PathGlobsMatch(g, path, w);
        var i :| 0 <= i < |PathGlobs(w)| && Match(g, PathGlobs(w)[i], NormalizePath(path));
        assert PathGlobs(w)[i] in PathGlobs(w);
        IncludedIff(k, PathGlobs(w)[i], right);
        PathHitsAreMatches(lib, path, rest);
      }
    } else {
      var q :| q in PathGlobs(w) && !Included(k, q, right);
      IncludedIff(k, q, right);
      var v :| Counts(k, Empty, v) && Match(g, q, v) && !SomeMatches(g, right, v);
      CountedIsNormalized(g, v);
      PathGlobsMatch(g, v, w);
      PathHitsAreMatches(lib, v, rest);
      assert Hits(lib, PathSubject(v), w);
    }
  }

  lemma CoveredTextsIff(lib: Library, shapes: set<Shape>, rules: Rules)
    ensures CoveredTexts(lib.inClass, shapes, rules) <==> forall text :: AsciiText(shapes, text) ==> TextKept(lib, rules, text)
  {
    if CoveredTexts(lib.inClass, shapes, rules) {
      forall text, w | AsciiText(shapes, text) && ReportedShell(rules, w) && Hits(lib, TextSubject(text), w)
        ensures AnyHit(lib, TextSubject(text), ShellRest(rules))
      {
        WarningIncludedIff(lib, shapes, w, ShellRest(rules));
      }
    } else {
      var w :| ReportedShell(rules, w) && !TextIncluded(lib.inClass, shapes, w, ShellRest(rules));
      WarningIncludedIff(lib, shapes, w, ShellRest(rules));
    }
  }

  lemma CoveredPathsIff(lib: Library, rules: Rules)
    ensures CoveredPaths(lib.inClass, rules) <==> forall path :: AsciiText(NON_BLANK, path) ==> PathKept(lib, rules, path)
  {
    if CoveredPaths(lib.inClass, rules) {
      forall path, w | AsciiText(NON_BLANK, path) && ReportedPath(rules, w) && Hits(lib, PathSubject(path), w)
        ensures AnyHit(lib, PathSubject(path), PathRest(rules))
      {
        PathWarningIncludedIff(lib, w, PathRest(rules));
      }
    } else {
      var w :| ReportedPath(rules, w) && !PathIncluded(lib.inClass, w, PathRest(rules));
      PathWarningIncludedIff(lib, w, PathRest(rules));
    }
  }

  /** Text as validate_action lets it through: not blank. */
  predicate ValidAction(action: Action) {
    match action
    case Shell(command) => AsciiText(NON_BLANK, command)
    case File(path) => AsciiText(NON_BLANK, path)
    case Network(_) => true
  }

  // The search is exact: it succeeds if and only if no action is caught by a reported warning alone.
  lemma CoveredReportsIff(lib: Library, rules: Rules)
    ensures CoveredReports(lib.inClass, rules) <==> forall action :: ValidAction(action) ==> ActionKept(lib, rules, action)
  {
    CoveredTextsIff(lib, NON_BLANK, rules);
    CoveredPathsIff(lib, rules);
    if CoveredReports(lib.inClass, rules) {
      forall action | ValidAction(action) ensures ActionKept(lib, rules, action) {
        assert action.Shell? ==> TextKept(lib, rules, action.command);
        assert action.File? ==> PathKept(lib, rules, action.path);
      }
    } else if !CoveredTexts(lib.inClass, NON_BLANK, rules) {
      var text :| AsciiText(NON_BLANK, text) && !TextKept(lib, rules, text);
      assert ValidAction(Shell(text)) && !ActionKept(lib, rules, Shell(text));
    } else {
      var path :| AsciiText(NON_BLANK, path) && !PathKept(lib, rules, path);
      assert ValidAction(File(path)) && !ActionKept(lib, rules, File(path));
    }
  }

  /** The guard by syntax is one way to know. */
  lemma CleanReportsAreCovered(lib: Library, rules: Rules)
    requires CleanReports(rules)
    ensures CoveredReports(lib.inClass, rules)
  {
    CoveredReportsIff(lib, rules);
    forall action ensures ActionKept(lib, rules, action) {
      match action {
        case Shell(command) => CleanReportsKeepTexts(lib, rules, command);
        case File(path) => CleanReportsKeepPaths(lib, rules, path);
        case Network(_) =>
      }
    }
  }

  // ----- decisions of evaluate_action --------------------------------------------------------------------

  predicate SameActionDecision(lib: Library, action: Action, policy: Policy) {
    var before, after := Evaluated(lib, action, policy), Evaluated(lib, action, WithoutReported(policy));
    before.Ok? == after.Ok? && (before.Ok? ==> before.value.decision == after.value.decision)
  }

  lemma ActionDecisionKeptIff(lib: Library, action: Action, policy: Policy)
    ensures SameActionDecision(lib, action, policy) <==> policy.default == Warn || ActionKept(lib, policy.rules, action)
  {
    match action {
      case Shell(command) =>
        ShellDecision(lib, command, policy);
        ShellDecision(lib, command, WithoutReported(policy));
        WithoutReportedLookups(policy, "shell", "deny_patterns");
        WithoutReportedLookups(policy, "shell", "warn_patterns");
        KeptHitsAreHits(lib, TextSubject(command), policy.rules);
        TextKeptIff(lib, policy.rules, command);
      case File(path) =>
        FileDecision(lib, path, policy);
        FileDecision(lib, path, WithoutReported(policy));
        WithoutReportedLookups(policy, "files", "deny_paths");
        WithoutReportedLookups(policy, "files", "warn_paths");
        KeptHitsAreHits(lib, PathSubject(path), policy.rules);
        PathKeptIff(lib, policy.rules, path);
      case Network(_) =>
        WithoutReportedLookups(policy, "network", "deny_domains");
        WithoutReportedLookups(policy, "network", "allow_domains");
    }
  }

  lemma KeptHitsAreHits(lib: Library, s: Subject, rules: Rules)
    ensures AnyHit(lib, s, KeptShell(rules)) ==> AnyHit(lib, s, PatternsOf(rules, "shell", "warn_patterns"))
    ensures AnyHit(lib, s, KeptPaths(rules)) ==> AnyHit(lib, s, PatternsOf(rules, "files", "warn_paths"))
  {
    if w :| w in KeptShell(rules) && Hits(lib, s, w) {
      FilterMember(PatternsOf(rules, "shell", "warn_patterns"), ShellKeeps(PatternsOf(rules, "shell", "deny_patterns")), w);
    }
    if w :| w in KeptPaths(rules) && Hits(lib, s, w) {
      FilterMember(PatternsOf(rules, "files", "warn_paths"), PathKeeps(PatternsOf(rules, "files", "deny_paths")), w);
    }
  }

  /** Enough to know about a policy and an action, by syntax or by search. */
  predicate SafeForAction(lib: Library, rules: Rules, action: Action) {
    CleanReports(rules) || (CoveredReports(lib.inClass, rules) && ValidAction(action))
  }

  lemma SafeActionsAreKept(lib: Library, rules: Rules, action: Action)
    requires SafeForAction(lib, rules, action)
    ensures ActionKept(lib, rules, action)
  {
    if CleanReports(rules) {
      match action {
        case Shell(command) => CleanReportsKeepTexts(lib, rules, command);
        case File(path) => CleanReportsKeepPaths(lib, rules, path);
        case Network(_) =>
      }
    } else {
      CoveredReportsIff(lib, rules);
    }
  }

  /** Deleting every reported warning leaves the action's decision as it was. */
  lemma DeletionKeepsActionDecision(lib: Library, action: Action, policy: Policy)
    requires SafeForAction(lib, policy.rules, action)
    ensures SameActionDecision(lib, action, policy)
  {
    SafeActionsAreKept(lib, policy.rules, action);
    ActionDecisionKeptIff(lib, action, policy);
  }

  // "Always superseded" is right for a policy if and only if the search succeeds, except that with
  // the default `warn` a lost warning does not show.
  lemma DeletionKeepsActionsIff(lib: Library, policy: Policy)
    ensures (forall action :: ValidAction(action) ==> SameActionDecision(lib, action, policy))
            <==> policy.default == Warn || CoveredReports(lib.inClass, policy.rules)
  {
    CoveredReportsIff(lib, policy.rules);
    forall action ensures SameActionDecision(lib, action, policy)
                          <==> policy.default == Warn || ActionKept(lib, policy.rules, action)
    {
      ActionDecisionKeptIff(lib, action, policy);
    }
  }

  // ----- decisions of scan_manifest and evaluate_mcp_request ----------------------------------------------

  /** The reasons that cannot change, and whether a deny or any finding is among all reasons. */
  predicate SameVerdict(before: seq<Reason>, after: seq<Reason>) {
    Blocks(before) == Blocks(after) && (!Blocks(before) ==> (before == [] <==> after == []))
  }

  lemma SameVerdictDecides(before: seq<Reason>, after: seq<Reason>, default: Decision)
    requires SameVerdict(before, after)
    ensures DecisionFor(before, default) == DecisionFor(after, default)
  {
  }

  lemma BlocksAppend(a: seq<Reason>, b: seq<Reason>)
    ensures Blocks(a + b) == (Blocks(a) || Blocks(b))
  {
    if Blocks(a) {
      var r :| r in a && r.effect == DenyEffect;
      assert r in a + b;
    }
    if Blocks(b) {
      var r :| r in b && r.effect == DenyEffect;
      assert r in a + b;
    }
  }

  lemma SameVerdictAppend(a: seq<Reason>, a': seq<Reason>, b: seq<Reason>, b': seq<Reason>)
    requires SameVerdict(a, a') && SameVerdict(b, b')
    ensures SameVerdict(a + b, a' + b')
  {
    BlocksAppend(a, b);
    BlocksAppend(a', b');
  }

  lemma ToolNameReasonsUnchanged(lib: Library, name: string, policy: Policy)
    ensures ToolNameReasons(lib, name, WithoutReported(policy).rules) == ToolNameReasons(lib, name, policy.rules)
    ensures BaseDecision(lib, name, WithoutReported(policy)) == BaseDecision(lib, name, policy)
  {
    WithoutReportedLookups(policy, "mcp_tools", "deny_names");
    WithoutReportedLookups(policy, "mcp_tools", "allow_names");
    WithoutReportedLookups(policy, "mcp_tools", "warn_if_name_contains");
  }

  lemma DocumentReasonsUnchanged(lib: Library, e: ManifestEntry, policy: Policy)
    ensures DocumentReasons(lib, e, WithoutReported(policy).rules) == DocumentReasons(lib, e, policy.rules)
  {
    WithoutReportedLookups(policy, "mcp_tools", "deny_if_description_contains");
    WithoutReportedLookups(policy, "mcp_tools", "warn_if_schema_contains");
  }

  /** A deny list and a warn list, before and after deletion. */
  lemma TwoListVerdict(lib: Library, s: Subject, deny: seq<string>, warn: seq<string>, kept: seq<string>,
                       denyRule: string, warnRule: string)
    requires AnyHit(lib, s, deny) || AnyHit(lib, s, warn) == AnyHit(lib, s, kept)
    ensures SameVerdict(Found(lib, s, deny, denyRule, DenyEffect) + Found(lib, s, warn, warnRule, WarnEffect),
                        Found(lib, s, deny, denyRule, DenyEffect) + Found(lib, s, kept, warnRule, WarnEffect))
  {
    var d := Found(lib, s, deny, denyRule, DenyEffect);
    var w, k := Found(lib, s, warn, warnRule, WarnEffect), Found(lib, s, kept, warnRule, WarnEffect);
    FoundIsAnyHit(lib, s, deny, denyRule, DenyEffect);
    FoundIsAnyHit(lib, s, warn, warnRule, WarnEffect);
    FoundIsAnyHit(lib, s, kept, warnRule, WarnEffect);
    BlocksAppend(d, w);
    BlocksAppend(d, k);
    OnlyWarnings(lib, s, warn, warnRule);
    OnlyWarnings(lib, s, kept, warnRule);
    if d != [] {
      FoundMember(lib, s, deny, denyRule, DenyEffect, d[0]);
      assert Blocks(d);
    }
  }

  lemma OnlyWarnings(lib: Library, s: Subject, patterns: seq<string>, rule: string)
    ensures !Blocks(Found(lib, s, patterns, rule, WarnEffect))
  {
    if r :| r in Found(lib, s, patterns, rule, WarnEffect) && r.effect == DenyEffect {
      FoundMember(lib, s, patterns, rule, WarnEffect, r);
    }
  }

  lemma ShellVerdict(lib: Library, text: string, policy: Policy)
    requires TextKept(lib, policy.rules, text)
    ensures SameVerdict(ShellReasons(lib, text, policy.rules), ShellReasons(lib, text, WithoutReported(policy).rules))
  {
    WithoutReportedLookups(policy, "shell", "deny_patterns");
    WithoutReportedLookups(policy, "shell", "warn_patterns");
    TextKeptIff(lib, policy.rules, text);
    TwoListVerdict(lib, TextSubject(text), PatternsOf(policy.rules, "shell", "deny_patterns"),
                   PatternsOf(policy.rules, "shell", "warn_patterns"), KeptShell(policy.rules),
                   "shell.deny_patterns", "shell.warn_patterns");
  }

  lemma ActionVerdict(lib: Library, action: Action, policy: Policy)
    requires ActionKept(lib, policy.rules, action)
    ensures SameVerdict(ActionReasons(lib, action, policy.rules), ActionReasons(lib, action, WithoutReported(policy).rules))
  {
    match action {
      case Shell(command) =>
        ShellVerdict(lib, command, policy);
      case File(path) =>
        WithoutReportedLookups(policy, "files", "deny_paths");
        WithoutReportedLookups(policy, "files", "warn_paths");
        PathKeptIff(lib, policy.rules, path);
        TwoListVerdict(lib, PathSubject(path), PatternsOf(policy.rules, "files", "deny_paths"),
                       PatternsOf(policy.rules, "files", "warn_paths"), KeptPaths(policy.rules),
                       "files.deny_paths", "files.warn_paths");
      case Network(_) =>
        WithoutReportedLookups(policy, "network", "deny_domains");
        WithoutReportedLookups(policy, "network", "allow_domains");
    }
  }

  lemma {:induction false} AllActionsVerdict(lib: Library, actions: seq<Action>, policy: Policy)
    requires forall a :: a in actions ==> ActionKept(lib, policy.rules, a)
    ensures SameVerdict(AllActionReasons(lib, actions, policy.rules),
                        AllActionReasons(lib, actions, WithoutReported(policy).rules))
  {
    if actions != [] {
      var init, last := actions[..|actions| - 1], actions[|actions| - 1];
      AllActionsVerdict(lib, init, policy);
      ActionVerdict(lib, last, policy);
      SameVerdictAppend(AllActionReasons(lib, init, policy.rules),
                        AllActionReasons(lib, init, WithoutReported(policy).rules),
                        ActionReasons(lib, last, policy.rules), ActionReasons(lib, last, WithoutReported(policy).rules));
    }
  }

  /** Only warnings go: what blocks, blocks as before, whatever the reports rest on. */
  lemma {:induction false} SameBlocks(lib: Library, actions: seq<Action>, policy: Policy)
    ensures Blocks(AllActionReasons(lib, actions, policy.rules))
            == Blocks(AllActionReasons(lib, actions, WithoutReported(policy).rules))
  {
    if actions != [] {
      var init, last := actions[..|actions| - 1], actions[|actions| - 1];
      SameBlocks(lib, init, policy);
      ActionBlocks(lib, last, policy);
      BlocksAppend(AllActionReasons(lib, init, policy.rules), ActionReasons(lib, last, policy.rules));
      BlocksAppend(AllActionReasons(lib, init, WithoutReported(policy).rules),
                   ActionReasons(lib, last, WithoutReported(policy).rules));
    }
  }

  lemma ActionBlocks(lib: Library, action: Action, policy: Policy)
    ensures Blocks(ActionReasons(lib, action, policy.rules)) == Blocks(ActionReasons(lib, action, WithoutReported(policy).rules))
  {
    match action {
      case Shell(command) =>
        ShellBlocks(lib, command, policy);
      case File(path) =>
        WithoutReportedLookups(policy, "files", "deny_paths");
        BlocksAreDenies(lib, PathSubject(path), PatternsOf(policy.rules, "files", "deny_paths"), "files.deny_paths",
                        PatternsOf(policy.rules, "files", "warn_paths"), "files.warn_paths");
        BlocksAreDenies(lib, PathSubject(path), PatternsOf(policy.rules, "files", "deny_paths"), "files.deny_paths",
                        PatternsOf(WithoutReported(policy).rules, "files", "warn_paths"), "files.warn_paths");
      case Network(_) =>
        WithoutReportedLookups(policy, "network", "deny_domains");
        WithoutReportedLookups(policy, "network", "allow_domains");
    }
  }

  lemma ShellBlocks(lib: Library, text: string, policy: Policy)
    ensures Blocks(ShellReasons(lib, text, policy.rules)) == Blocks(ShellReasons(lib, text, WithoutReported(policy).rules))
  {
    WithoutReportedLookups(policy, "shell", "deny_patterns");
    BlocksAreDenies(lib, TextSubject(text), PatternsOf(policy.rules, "shell", "deny_patterns"), "shell.deny_patterns",
                    PatternsOf(policy.rules, "shell", "warn_patterns"), "shell.warn_patterns");
    BlocksAreDenies(lib, TextSubject(text), PatternsOf(policy.rules, "shell", "deny_patterns"), "shell.deny_patterns",
                    PatternsOf(WithoutReported(policy).rules, "shell", "warn_patterns"), "shell.warn_patterns");
  }

  lemma BlocksAreDenies(lib: Library, s: Subject, deny: seq<string>, denyRule: string, warn: seq<string>, warnRule: string)
    ensures Blocks(Found(lib, s, deny, denyRule, DenyEffect) + Found(lib, s, warn, warnRule, WarnEffect)) == AnyHit(lib, s, deny)
  {
    var d, w := Found(lib, s, deny, denyRule, DenyEffect), Found(lib, s, warn, warnRule, WarnEffect);
    BlocksAppend(d, w);
    OnlyWarnings(lib, s, warn, warnRule);
    FoundIsAnyHit(lib, s, deny, denyRule, DenyEffect);
    if d != [] {
      FoundMember(lib, s, deny, denyRule, DenyEffect, d[0]);
      assert d[0] in d;
    }
  }

  predicate SameEntryDecision(lib: Library, e: ManifestEntry, policy: Policy) {
    ScannedEntry(lib, e, policy).decision == ScannedEntry(lib, e, WithoutReported(policy)).decision
  }

  /** Nothing but the shell lists has anything to say about the entry, and its fallback is not `warn`. */
  predicate QuietEntry(lib: Library, e: ManifestEntry, policy: Policy) {
    && ToolNameReasons(lib, e.name, policy.rules) == []
    && DocumentReasons(lib, e, policy.rules) == []
    && BaseDecision(lib, e.name, policy) != Warn
  }

  lemma EntryVerdict(lib: Library, e: ManifestEntry, policy: Policy)
    requires TextKept(lib, policy.rules, e.command)
    ensures SameEntryDecision(lib, e, policy)
  {
    var r, r' := policy.rules, WithoutReported(policy).rules;
    ToolNameReasonsUnchanged(lib, e.name, policy);
    DocumentReasonsUnchanged(lib, e, policy);
    ShellVerdict(lib, e.command, policy);
    var names, rest := ToolNameReasons(lib, e.name, r), DocumentReasons(lib, e, r);
    SameVerdictAppend(names, names, ShellReasons(lib, e.command, r), ShellReasons(lib, e.command, r'));
    SameVerdictAppend(names + ShellReasons(lib, e.command, r), names + ShellReasons(lib, e.command, r'), rest, rest);
    SameVerdictDecides(EntryReasons(lib, e, r), EntryReasons(lib, e, r'), BaseDecision(lib, e.name, policy));
  }

  lemma NoisyEntry(lib: Library, e: ManifestEntry, policy: Policy)
    requires !QuietEntry(lib, e, policy)
    ensures SameEntryDecision(lib, e, policy)
  {
    var r, r' := policy.rules, WithoutReported(policy).rules;
    ToolNameReasonsUnchanged(lib, e.name, policy);
    DocumentReasonsUnchanged(lib, e, policy);
    ShellBlocks(lib, e.command, policy);
    var names, rest := ToolNameReasons(lib, e.name, r), DocumentReasons(lib, e, r);
    BlocksAppend(names, ShellReasons(lib, e.command, r));
    BlocksAppend(names, ShellReasons(lib, e.command, r'));
    BlocksAppend(names + ShellReasons(lib, e.command, r), rest);
    BlocksAppend(names + ShellReasons(lib, e.command, r'), rest);
  }

  lemma QuietEntryKeptIff(lib: Library, e: ManifestEntry, policy: Policy)
    requires QuietEntry(lib, e, policy)
    ensures SameEntryDecision(lib, e, policy) <==> TextKept(lib, policy.rules, e.command)
  {
    var default := BaseDecision(lib, e.name, policy);
    ToolNameReasonsUnchanged(lib, e.name, policy);
    DocumentReasonsUnchanged(lib, e, policy);
    WithoutReportedLookups(policy, "shell", "deny_patterns");
    WithoutReportedLookups(policy, "shell", "warn_patterns");
    KeptHitsAreHits(lib, TextSubject(e.command), policy.rules);
    TextKeptIff(lib, policy.rules, e.command);
    TwoListDecision(lib, TextSubject(e.command), PatternsOf(policy.rules, "shell", "deny_patterns"),
                    PatternsOf(policy.rules, "shell", "warn_patterns"), "shell.deny_patterns", "shell.warn_patterns",
                    [], [], default);
    TwoListDecision(lib, TextSubject(e.command), PatternsOf(policy.rules, "shell", "deny_patterns"),
                    KeptShell(policy.rules), "shell.deny_patterns", "shell.warn_patterns", [], [], default);
    BareEntry(lib, e, policy.rules);
    BareEntry(lib, e, WithoutReported(policy).rules);
  }

  lemma BareEntry(lib: Library, e: ManifestEntry, r: Rules)
    requires ToolNameReasons(lib, e.name, r) == [] && DocumentReasons(lib, e, r) == []
    ensures EntryReasons(lib, e, r)
            == [] + Found(lib, TextSubject(e.command), PatternsOf(r, "shell", "deny_patterns"), "shell.deny_patterns", DenyEffect)
               + Found(lib, TextSubject(e.command), PatternsOf(r, "shell", "warn_patterns"), "shell.warn_patterns", WarnEffect) + []
  {
  }

  /** Commands of manifest entries: absent for a tool, trimmed for a server. */
  const MANIFEST_SHAPES := {Empty, Trimmed}

  predicate SafeForCommand(lib: Library, rules: Rules, command: string) {
    CleanReports(rules) || (CoveredTexts(lib.inClass, MANIFEST_SHAPES, rules) && AsciiText(MANIFEST_SHAPES, command))
  }

  /** The same for every manifest entry: the shell lists have a second reader. */
  lemma DeletionKeepsManifestDecision(lib: Library, e: ManifestEntry, policy: Policy)
    requires SafeForCommand(lib, policy.rules, e.command) || !QuietEntry(lib, e, policy)
    ensures SameEntryDecision(lib, e, policy)
  {
    if !QuietEntry(lib, e, policy) {
      NoisyEntry(lib, e, policy);
    } else {
      if CleanReports(policy.rules) {
        CleanReportsKeepTexts(lib, policy.rules, e.command);
      } else {
        CoveredTextsIff(lib, MANIFEST_SHAPES, policy.rules);
      }
      EntryVerdict(lib, e, policy);
    }
  }

  lemma DeletionKeepsManifestsIff(lib: Library, e: ManifestEntry, policy: Policy)
    ensures (forall command :: AsciiText(MANIFEST_SHAPES, command) ==> SameEntryDecision(lib, e.(command := command), policy))
            <==> !QuietEntry(lib, e, policy) || CoveredTexts(lib.inClass, MANIFEST_SHAPES, policy.rules)
  {
    CoveredTextsIff(lib, MANIFEST_SHAPES, policy.rules);
    forall command
      ensures SameEntryDecision(lib, e.(command := command), policy)
              <==> !QuietEntry(lib, e, policy) || TextKept(lib, policy.rules, command)
    {
      var e' := e.(command := command);
      assert QuietEntry(lib, e', policy) == QuietEntry(lib, e, policy);
      if QuietEntry(lib, e', policy) {
        QuietEntryKeptIff(lib, e', policy);
      } else {
        NoisyEntry(lib, e', policy);
      }
    }
  }

  // ----- decisions of evaluate_mcp_request ------------------------------------------------------------------

  predicate SameGatewayDecision(lib: Library, request: Object, policy: Policy) {
    var before, after := McpEvaluated(lib, request, policy), McpEvaluated(lib, request, WithoutReported(policy));
    before.Ok? == after.Ok? && (before.Ok? ==> before.value.evaluation.decision == after.value.evaluation.decision)
  }

  /** The command and the path of a request are ASCII; that they are not blank is checked on the way. */
  predicate AsciiRequest(request: Object) {
    var call := ParseMcpToolCall(request);
    call.Ok? ==> AsciiArgument(call.value.arguments, "command") && AsciiArgument(call.value.arguments, "path")
  }

  predicate AsciiArgument(arguments: Object, key: string) {
    key in arguments && arguments[key].Str? ==> Ascii(arguments[key].s)
  }

  predicate SafeForRequest(lib: Library, rules: Rules, request: Object) {
    CleanReports(rules) || (CoveredReports(lib.inClass, rules) && AsciiRequest(request))
  }

  lemma NotBlankShape(text: string)
    ensures ShapeAfter(Empty, text) in NON_BLANK <==> !Blank(text)
  {
    ShapeMeans(Empty, text);
  }

  lemma ProjectedActionsAreValid(request: Object, call: ToolCall, action: Action)
    requires AsciiRequest(request) && ParseMcpToolCall(request) == Ok(call)
    requires CapabilityActions(call).Ok? && action in CapabilityActions(call).value
    ensures ValidAction(action)
  {
    match action {
      case Shell(command) => NotBlankShape(command);
      case File(path) => NotBlankShape(path);
      case Network(_) =>
    }
  }

  /** And for every gateway request, including which requests are refused as malformed. */
  lemma DeletionKeepsGatewayDecision(lib: Library, request: Object, policy: Policy)
    requires SafeForRequest(lib, policy.rules, request)
    ensures SameGatewayDecision(lib, request, policy)
  {
    if McpEvaluated(lib, request, policy).Ok? {
      var call := ParseMcpToolCall(request).value;
      var actions := CapabilityActions(call).value;
      forall a | a in actions ensures ActionKept(lib, policy.rules, a) {
        if !CleanReports(policy.rules) {
          ProjectedActionsAreValid(request, call, a);
        }
        SafeActionsAreKept(lib, policy.rules, a);
      }
      ToolNameReasonsUnchanged(lib, call.name, policy);
      AllActionsVerdict(lib, actions, policy);
      var fixed := ToolNameReasons(lib, call.name, policy.rules) + GatewayMarks(call);
      SameVerdictAppend(fixed, fixed, AllActionReasons(lib, actions, policy.rules),
                        AllActionReasons(lib, actions, WithoutReported(policy).rules));
      SameVerdictDecides(fixed + AllActionReasons(lib, actions, policy.rules),
                         fixed + AllActionReasons(lib, actions, WithoutReported(policy).rules),
                         BaseDecision(lib, call.name, policy));
    }
  }

  predicate QuietName(lib: Library, name: string, policy: Policy) {
    ToolNameReasons(lib, name, policy.rules) == [] && BaseDecision(lib, name, policy) != Warn
  }

  predicate CallsTool(request: Object, name: string) {
    ParseMcpToolCall(request).Ok? && ParseMcpToolCall(request).value.name == name
  }

  lemma NoisyName(lib: Library, request: Object, name: string, policy: Policy)
    requires CallsTool(request, name) && !QuietName(lib, name, policy)
    ensures SameGatewayDecision(lib, request, policy)
  {
    if McpEvaluated(lib, request, policy).Ok? {
      var call := ParseMcpToolCall(request).value;
      var actions := CapabilityActions(call).value;
      ToolNameReasonsUnchanged(lib, name, policy);
      SameBlocks(lib, actions, policy);
      var fixed := ToolNameReasons(lib, call.name, policy.rules) + GatewayMarks(call);
      BlocksAppend(fixed, AllActionReasons(lib, actions, policy.rules));
      BlocksAppend(fixed, AllActionReasons(lib, actions, WithoutReported(policy).rules));
    }
  }

  /** A request whose only argument is the command or the path of an action. */
  function RequestFor(name: string, action: Action): Object
    requires !action.Network?
  {
    var arguments := match action
      case Shell(command) => map["command" := Str(command)]
      case File(path) => map["path" := Str(path)]
      case Network(_) => map[];
    map["jsonrpc" := Str("2.0"), "method" := Str("tools/call"), "id" := Int(1),
        "params" := Obj(map["name" := Str(name), "arguments" := Obj(arguments)])]
  }

  lemma RequestForReads(name: string, action: Action)
    requires !action.Network? && ValidAction(action) && !Blank(name) && |name| <= MAX_TOOL_NAME_CHARS
    ensures CallsTool(RequestFor(name, action), name) && AsciiRequest(RequestFor(name, action))
    ensures var call := ParseMcpToolCall(RequestFor(name, action)).value;
            CapabilityActions(call) == Ok([action]) && GatewayMarks(call) == []
  {
    NotBlankShape(if action.Shell? then action.command else action.path);
    var call := ParseMcpToolCall(RequestFor(name, action)).value;
    var key := if action.Shell? then "command" else "path";
    assert call.arguments.Keys == {key};
    assert call == ToolCall(name, call.arguments, false);
    assert !Unclassified(call);
    assert [action] + [] + [] == [action] && [] + [action] + [] == [action];
  }

  lemma QuietRequestDecision(lib: Library, name: string, action: Action, policy: Policy) returns (r: Result<GatewayResult, InputError>)
    requires !action.Network? && ValidAction(action) && !Blank(name) && |name| <= MAX_TOOL_NAME_CHARS
    requires ToolNameReasons(lib, name, policy.rules) == []
    ensures r == McpEvaluated(lib, RequestFor(name, action), policy)
    ensures r.Ok? && r.value.evaluation.decision == DecisionFor(ActionReasons(lib, action, policy.rules), BaseDecision(lib, name, policy))
  {
    RequestForReads(name, action);
    OneAction(lib, action, policy.rules);
    r := McpEvaluated(lib, RequestFor(name, action), policy);
  }

  /** ActionDecisionKeptIff under another fallback. */
  lemma FindingsKeptIff(lib: Library, action: Action, policy: Policy, default: Decision)
    requires !action.Network?
    ensures DecisionFor(ActionReasons(lib, action, policy.rules), default)
            == DecisionFor(ActionReasons(lib, action, WithoutReported(policy).rules), default)
            <==> default == Warn || ActionKept(lib, policy.rules, action)
  {
    var p := Policy(default, policy.rules);
    assert WithoutReported(p) == Policy(default, WithoutReported(policy).rules);
    ActionDecisionKeptIff(lib, action, p);
  }

  lemma QuietRequestKeptIff(lib: Library, name: string, action: Action, policy: Policy)
    requires !action.Network? && ValidAction(action) && !Blank(name) && |name| <= MAX_TOOL_NAME_CHARS
    requires QuietName(lib, name, policy)
    ensures SameGatewayDecision(lib, RequestFor(name, action), policy) <==> ActionKept(lib, policy.rules, action)
  {
    ToolNameReasonsUnchanged(lib, name, policy);
    var before := QuietRequestDecision(lib, name, action, policy);
    var after := QuietRequestDecision(lib, name, action, WithoutReported(policy));
    FindingsKeptIff(lib, action, policy, BaseDecision(lib, name, policy));
  }

  lemma OneAction(lib: Library, action: Action, rules: Rules)
    ensures [] + [] + AllActionReasons(lib, [action], rules) == ActionReasons(lib, action, rules)
  {
    assert [action][..0] == [];
  }

  // The same condition at the gateway: for a tool whose name decides nothing by itself, deletion is
  // harmless on all its requests if and only if the search succeeds.
  lemma DeletionKeepsGatewayIff(lib: Library, name: string, policy: Policy)
    requires !Blank(name) && |name| <= MAX_TOOL_NAME_CHARS
    ensures (forall request :: CallsTool(request, name) && AsciiRequest(request) ==> SameGatewayDecision(lib, request, policy))
            <==> !QuietName(lib, name, policy) || CoveredReports(lib.inClass, policy.rules)
  {
    if !QuietName(lib, name, policy) {
      forall request | CallsTool(request, name) ensures SameGatewayDecision(lib, request, policy) {
        NoisyName(lib, request, name, policy);
      }
    } else if CoveredReports(lib.inClass, policy.rules) {
      forall request | AsciiRequest(request) ensures SameGatewayDecision(lib, request, policy) {
        DeletionKeepsGatewayDecision(lib, request, policy);
      }
    } else {
      CoveredReportsIff(lib, policy.rules);
      var action :| ValidAction(action) && !ActionKept(lib, policy.rules, action);
      RequestForReads(name, action);
      QuietRequestKeptIff(lib, name, action, policy);
    }
  }
}
