/**
 * The pattern language of policies (matching.py) over ASCII text.
 *
 * Globs are turned into tokens the way Python's fnmatch reads them: `*`, `?`, bracket classes
 * (which need a closing bracket, otherwise `[` is literal) and literal characters. What a class
 * body admits is a parameter, `ClassSemantics`; no result below depends on it.
 */
module Matching {
  import opened Basics

  type ClassSemantics = (string, char) -> bool

  datatype Token = Star | AnyChar | Lit(c: char) | Class(body: string)

  function LowerChar(c: char): char {
    if 'A' <= c <= 'Z' then c - 'A' + 'a' else c
  }

  function Lower(s: string): string {
    seq(|s|, i requires 0 <= i < |s| => LowerChar(s[i]))
  }

  /** Separators unified and case folded, as for every path comparison. */
  function NormalizePath(s: string): string {
    seq(|s|, i requires 0 <= i < |s| => if s[i] == '\\' then '/' else LowerChar(s[i]))
  }

  predicate HasWildcard(p: string) {
    '*' in p || '?' in p
  }

  /** The first position at or after `from` that holds `c`. */
  function FindChar(s: string, c: char, from: nat): (r: Option<nat>)
    ensures r.Some? ==> from <= r.value < |s| && s[r.value] == c
    ensures r.None? ==> forall j :: from <= j < |s| ==> s[j] != c
    decreases |s| - from
  {
    if from >= |s| then None
    else if s[from] == c then Some(from)
    else FindChar(s, c, from + 1)
  }

  /** Where the search for the closing bracket of a class starting at `p[0]` begins. */
  function ClassSearchStart(p: string): nat
    requires p != ""
  {
    var i := if |p| > 1 && p[1] == '!' then 2 else 1;
    if i < |p| && p[i] == ']' then i + 1 else i
  }

  function ClassEnd(p: string): Option<nat>
    requires p != ""
  {
    if p[0] == '[' then FindChar(p, ']', ClassSearchStart(p)) else None
  }

  function Tokens(p: string): seq<Token>
    decreases |p|
  {
    if p == "" then []
    else if p[0] == '*' then [Star] + Tokens(p[1..])
    else if p[0] == '?' then [AnyChar] + Tokens(p[1..])
    else if ClassEnd(p).Some? then
      var end := ClassEnd(p).value;
      [Class(p[1..end])] + Tokens(p[end + 1..])
    else [Lit(p[0])] + Tokens(p[1..])
  }

  /** Does the whole text belong to the language of the token list? */
  predicate Match(g: ClassSemantics, ts: seq<Token>, v: string)
    decreases |ts| + |v|
  {
    if ts == [] then v == ""
    else match ts[0]
      case Star => Match(g, ts[1..], v) || (v != "" && Match(g, ts, v[1..]))
      case AnyChar => v != "" && Match(g, ts[1..], v[1..])
      case Lit(c) => v != "" && v[0] == c && Match(g, ts[1..], v[1..])
      case Class(body) => v != "" && g(body, v[0]) && Match(g, ts[1..], v[1..])
  }

  predicate OccursAt(v: string, s: string, i: int) {
    0 <= i <= |v| - |s| && v[i..i + |s|] == s
  }

  predicate Contains(v: string, s: string) {
    exists i :: 0 <= i <= |v| && OccursAt(v, s, i)
  }

  predicate TextMatches(g: ClassSemantics, value: string, pattern: string) {
    FoldedTextMatches(g, Lower(value), Lower(pattern))
  }

  /** Text matching once both sides are lower case. */
  predicate FoldedTextMatches(g: ClassSemantics, v: string, p: string) {
    if HasWildcard(p) then Match(g, Tokens("*" + p + "*"), v) else Contains(v, p)
  }

  predicate NameMatches(g: ClassSemantics, value: string, pattern: string) {
    Match(g, Tokens(Lower(pattern)), Lower(value))
  }

  predicate PathMatches(g: ClassSemantics, value: string, pattern: string) {
    var v, p := NormalizePath(value), NormalizePath(pattern);
    Match(g, Tokens(p), v) || ("**/" <= p && Match(g, Tokens(p[3..]), v))
  }

  function StripTrailingDots(s: string): string {
    if s != "" && s[|s| - 1] == '.' then StripTrailingDots(s[..|s| - 1]) else s
  }

  predicate DomainMatches(g: ClassSemantics, domain: string, pattern: string) {
    Match(g, Tokens(StripTrailingDots(Lower(pattern))), StripTrailingDots(Lower(domain)))
  }

  // ----- the language of a concatenation ---------------------------------------------------

  lemma {:induction false} MatchJoin(g: ClassSemantics, a: seq<Token>, b: seq<Token>, x: string, y: string)
    requires Match(g, a, x) && Match(g, b, y)
    ensures Match(g, a + b, x + y)
    decreases |a| + |x|
  {
    if a == [] {
      assert a + b == b && x + y == y;
    } else {
      assert (a + b)[1..] == a[1..] + b && (a + b)[0] == a[0];
      if a[0].Star? && Match(g, a[1..], x) {
        MatchJoin(g, a[1..], b, x, y);
      } else {
        assert (x + y)[1..] == x[1..] + y;
        MatchJoin(g, if a[0].Star? then a else a[1..], b, x[1..], y);
      }
    }
  }

  lemma {:induction false} MatchSplit(g: ClassSemantics, a: seq<Token>, b: seq<Token>, v: string) returns (k: nat)
    requires Match(g, a + b, v)
    ensures k <= |v| && Match(g, a, v[..k]) && Match(g, b, v[k..])
    decreases |a| + |v|
  {
    if a == [] {
      assert a + b == b && v[0..] == v;
      k := 0;
    } else {
      assert (a + b)[1..] == a[1..] + b && (a + b)[0] == a[0];
      if a[0].Star? && Match(g, a[1..] + b, v) {
        k := MatchSplit(g, a[1..], b, v);
      } else {
        var k0 := MatchSplit(g, if a[0].Star? then a else a[1..], b, v[1..]);
        k := k0 + 1;
        assert v[..k][1..] == v[1..][..k0] && v[k..] == v[1..][k0..];
      }
    }
  }

  lemma {:induction false} StarMatchesEverything(g: ClassSemantics, v: string)
    ensures Match(g, [Star], v)
  {
    if v == "" {
      assert Match(g, [Star][1..], v);
    } else {
      StarMatchesEverything(g, v[1..]);
    }
  }

  lemma {:induction false} StarsMatchEverything(g: ClassSemantics, v: string)
    ensures Match(g, [Star, Star], v)
  {
    assert [Star, Star][1..] == [Star];
    StarMatchesEverything(g, v);
  }

  // ----- patterns without bracket classes ---------------------------------------------------

  /** No `[` of the pattern opens a class, so every character is a token of its own. */
  predicate Classless(p: string) {
    forall i :: 0 <= i < |p| ==> ClassEnd(p[i..]).None?
  }

  function CharToken(c: char): Token {
    if c == '*' then Star else if c == '?' then AnyChar else Lit(c)
  }

  function CharTokens(p: string): seq<Token> {
    seq(|p|, i requires 0 <= i < |p| => CharToken(p[i]))
  }

  lemma {:induction false} TokensOfClassless(p: string)
    requires Classless(p)
    ensures Tokens(p) == CharTokens(p)
  {
    if p != "" {
      assert p[0..] == p && ClassEnd(p[0..]).None?;
      forall i | 0 <= i < |p[1..]| ensures ClassEnd(p[1..][i..]).None? {
        assert p[1..][i..] == p[i + 1..];
        assert ClassEnd(p[i + 1..]).None?;
      }
      TokensOfClassless(p[1..]);
      assert CharTokens(p) == [CharToken(p[0])] + CharTokens(p[1..]);
    }
  }

  /** A shorter text with the same beginning closes no class that the longer one leaves open. */
  lemma ClassEndOfPrefix(long: string, short: string)
    requires short != "" && short <= long && ClassEnd(long).None?
    ensures ClassEnd(short).None?
  {
    if short[0] == '[' {
      var s := ClassSearchStart(short);
      assert ClassSearchStart(long) <= s || |short| <= s;
      forall j | s <= j < |short| ensures short[j] != ']' {
        assert long[j] == short[j];
      }
    }
  }

  lemma ClasslessPart(p: string, x: nat, y: nat)
    requires Classless(p) && x <= y <= |p|
    ensures Classless(p[x..y])
  {
    var b := p[x..y];
    forall i | 0 <= i < |b| ensures ClassEnd(b[i..]).None? {
      assert ClassEnd(p[x + i..]).None?;
      assert b[i..] <= p[x + i..];
      ClassEndOfPrefix(p[x + i..], b[i..]);
    }
  }

  lemma ClasslessBetweenStars(p: string)
    requires Classless(p)
    ensures Classless("*" + p + "*")
  {
    var w := "*" + p + "*";
    forall i | 0 <= i < |w| ensures ClassEnd(w[i..]).None? {
      if w[i] == '[' {
        assert 1 <= i <= |p|;
        var rest := p[i - 1..];
        assert ClassEnd(p[i - 1..]).None?;
        assert w[i..] == rest + "*";
        assert rest[0] == '[';
        assert ClassSearchStart(rest + "*") == ClassSearchStart(rest);
        assert FindChar(rest, ']', ClassSearchStart(rest)).None?;
        forall j | ClassSearchStart(rest) <= j < |rest + "*"| ensures (rest + "*")[j] != ']' {
          if j < |rest| {
            assert (rest + "*")[j] == rest[j];
          }
        }
      }
    }
  }

  lemma CharTokensAppend(a: string, b: string)
    ensures CharTokens(a + b) == CharTokens(a) + CharTokens(b)
  {
  }

  lemma {:induction false} LiteralLanguage(g: ClassSemantics, p: string, v: string)
    requires !HasWildcard(p)
    ensures Match(g, CharTokens(p), v) <==> v == p
  {
    if p != "" {
      assert CharTokens(p)[0] == Lit(p[0]);
      assert CharTokens(p)[1..] == CharTokens(p[1..]);
      if v != "" {
        LiteralLanguage(g, p[1..], v[1..]);
        assert v == [v[0]] + v[1..] && p == [p[0]] + p[1..];
      }
    }
  }

  /** Text containing a word of `ts`: the language of `*ts*`. */
  lemma MatchInside(g: ClassSemantics, ts: seq<Token>, v: string, i: nat, j: nat)
    requires i <= j <= |v| && Match(g, ts, v[i..j])
    ensures Match(g, [Star] + ts + [Star], v)
  {
    StarMatchesEverything(g, v[..i]);
    StarMatchesEverything(g, v[j..]);
    MatchJoin(g, [Star], ts, v[..i], v[i..j]);
    MatchJoin(g, [Star] + ts, [Star], v[..i] + v[i..j], v[j..]);
    assert v[..i] + v[i..j] + v[j..] == v;
  }

  /** Some stretch of a text in `*ts*` belongs to `ts`. */
  lemma InsideMatch(g: ClassSemantics, ts: seq<Token>, v: string) returns (i: nat, j: nat)
    requires Match(g, [Star] + ts + [Star], v)
    ensures i <= j <= |v| && Match(g, ts, v[i..j])
  {
    j := MatchSplit(g, [Star] + ts, [Star], v);
    i := MatchSplit(g, [Star], ts, v[..j]);
    assert v[..j][i..] == v[i..j];
  }

  lemma TokensBetweenStars(p: string)
    requires Classless(p)
    ensures Tokens("*" + p + "*") == [Star] + CharTokens(p) + [Star]
  {
    ClasslessBetweenStars(p);
    TokensOfClassless("*" + p + "*");
    CharTokensAppend("*" + p, "*");
    CharTokensAppend("*", p);
    assert CharTokens("*") == [Star];
  }

  lemma OccurrencePart(v: string, w: string, x: nat, y: nat)
    requires x <= y <= |w| && Contains(v, w)
    ensures Contains(v, w[x..y])
  {
    var i :| 0 <= i <= |v| && OccursAt(v, w, i);
    forall k | 0 <= k < y - x ensures v[i + x..i + y][k] == w[x..y][k] {
      assert v[i..i + |w|][x + k] == w[x + k];
    }
    assert v[i + x..i + y] == w[x..y];
    assert OccursAt(v, w[x..y], i + x);
  }

  lemma SliceOfSlice(v: string, i: nat, j: nat, k1: nat, k2: nat)
    requires i <= j <= |v| && k1 <= k2 <= j - i
    ensures v[i..j][..k2][k1..] == v[i + k1..i + k2]
  {
    forall n | 0 <= n < k2 - k1 ensures v[i..j][..k2][k1..][n] == v[i + k1..i + k2][n] {
      assert v[i..j][k1 + n] == v[i + k1 + n];
    }
  }

  /** Where a text in `*w*` shows the middle part of `w`. */
  lemma MiddlePart(g: ClassSemantics, a: seq<Token>, b: seq<Token>, c: seq<Token>, v: string)
    returns (i: nat, j: nat)
    requires Match(g, [Star] + (a + b + c) + [Star], v)
    ensures i <= j <= |v| && Match(g, b, v[i..j])
  {
    var i0, j0 := InsideMatch(g, a + b + c, v);
    var m := v[i0..j0];
    var k2 := MatchSplit(g, a + b, c, m);
    var k1 := MatchSplit(g, a, b, m[..k2]);
    i, j := i0 + k1, i0 + k2;
    SliceOfSlice(v, i0, j0, k1, k2);
  }

  lemma GlobPart(g: ClassSemantics, v: string, w: string, x: nat, y: nat)
    requires x <= y <= |w| && Classless(w)
    requires Match(g, Tokens("*" + w + "*"), v)
    ensures FoldedTextMatches(g, v, w[x..y])
  {
    var b := w[x..y];
    ClasslessPart(w, x, y);
    TokensBetweenStars(w);
    TokensBetweenStars(b);
    CharTokensAppend(w[..x], b);
    CharTokensAppend(w[..x] + b, w[y..]);
    assert w[..x] + b + w[y..] == w;
    var i, j := MiddlePart(g, CharTokens(w[..x]), CharTokens(b), CharTokens(w[y..]), v);
    if HasWildcard(b) {
      MatchInside(g, CharTokens(b), v, i, j);
    } else {
      LiteralLanguage(g, b, v[i..j]);
      assert OccursAt(v, b, i);
    }
  }

  lemma FoldedPartMatches(g: ClassSemantics, v: string, w: string, x: nat, y: nat)
    requires x <= y <= |w|
    requires FoldedTextMatches(g, v, w)
    requires HasWildcard(w) ==> Classless(w)
    ensures FoldedTextMatches(g, v, w[x..y])
  {
    if HasWildcard(w) {
      GlobPart(g, v, w, x, y);
    } else {
      OccurrencePart(v, w, x, y);
      forall c | c in w[x..y] ensures c in w {}
    }
  }

  /**
   * A pattern written inside another pattern matches every text the longer one matches: for
   * plain longer patterns always, for globs as long as no bracket class is involved.
   */
  lemma ContainedPatternMatches(g: ClassSemantics, value: string, longer: string, block: string)
    requires Contains(Lower(longer), Lower(block))
    requires TextMatches(g, value, longer)
    requires HasWildcard(Lower(longer)) ==> Classless(Lower(longer))
    ensures TextMatches(g, value, block)
  {
    var x :| 0 <= x <= |Lower(longer)| && OccursAt(Lower(longer), Lower(block), x);
    FoldedPartMatches(g, Lower(value), Lower(longer), x, x + |Lower(block)|);
  }

  // ----- `**/` means zero or more directories -----------------------------------------------

  predicate SegmentStart(v: string, k: int) {
    0 <= k <= |v| && (k == 0 || v[k - 1] == '/')
  }

  lemma TokensAfterDoubleStar(p: string)
    ensures Tokens("**/" + p) == [Star, Star, Lit('/')] + Tokens(p)
  {
    var tail := ['/'] + p;
    TokensOfFirst('/', p);
    TokensOfFirst('*', tail);
    TokensOfFirst('*', ['*'] + tail);
    assert "**/" + p == ['*'] + (['*'] + tail);
  }

  lemma TokensOfFirst(c: char, rest: string)
    requires c == '*' || c == '/'
    ensures Tokens([c] + rest) == [if c == '*' then Star else Lit(c)] + Tokens(rest)
  {
    assert ([c] + rest)[1..] == rest;
  }

  /** Some directory start of `v` from which `ts` matches. */
  ghost predicate MatchesFromSegment(g: ClassSemantics, ts: seq<Token>, v: string) {
    exists k :: SegmentStart(v, k) && Match(g, ts, v[k..])
  }

  lemma SlashThen(g: ClassSemantics, ts: seq<Token>, v: string)
    ensures Match(g, [Lit('/')] + ts, v) <==> v != "" && v[0] == '/' && Match(g, ts, v[1..])
  {
    assert ([Lit('/')] + ts)[1..] == ts;
  }

  lemma StarsSlashMeansSegment(g: ClassSemantics, ts: seq<Token>, v: string)
    requires Match(g, [Star, Star] + ([Lit('/')] + ts), v)
    ensures MatchesFromSegment(g, ts, v)
  {
    var k := MatchSplit(g, [Star, Star], [Lit('/')] + ts, v);
    SlashThen(g, ts, v[k..]);
    assert v[k..][1..] == v[k + 1..];
    assert SegmentStart(v, k + 1);
  }

  lemma SegmentMeansStarsSlash(g: ClassSemantics, ts: seq<Token>, v: string, k: int)
    requires 0 < k && SegmentStart(v, k) && Match(g, ts, v[k..])
    ensures Match(g, [Star, Star] + ([Lit('/')] + ts), v)
  {
    StarsMatchEverything(g, v[..k - 1]);
    assert v[k - 1..][1..] == v[k..];
    SlashThen(g, ts, v[k - 1..]);
    MatchJoin(g, [Star, Star], [Lit('/')] + ts, v[..k - 1], v[k - 1..]);
    assert v[..k - 1] + v[k - 1..] == v;
  }

  lemma NormalizeAfterDoubleStar(p: string) returns (q: string)
    ensures q == NormalizePath(p) && NormalizePath("**/" + p) == "**/" + q && ("**/" + q)[3..] == q
    ensures Tokens("**/" + q) == [Star, Star] + ([Lit('/')] + Tokens(q))
  {
    q := NormalizePath(p);
    assert NormalizePath("**/" + p) == "**/" + q;
    TokensAfterDoubleStar(q);
    assert [Star, Star, Lit('/')] + Tokens(q) == [Star, Star] + ([Lit('/')] + Tokens(q));
  }

  /** The two candidates of a pattern that starts with a double star, together. */
  lemma TwoCandidates(g: ClassSemantics, ts: seq<Token>, v: string)
    ensures Match(g, [Star, Star] + ([Lit('/')] + ts), v) || Match(g, ts, v) <==> MatchesFromSegment(g, ts, v)
  {
    assert v[0..] == v;
    if Match(g, [Star, Star] + ([Lit('/')] + ts), v) {
      StarsSlashMeansSegment(g, ts, v);
    } else if Match(g, ts, v) {
      assert SegmentStart(v, 0) && Match(g, ts, v[0..]);
    }
    if MatchesFromSegment(g, ts, v) {
      var k :| SegmentStart(v, k) && Match(g, ts, v[k..]);
      if k > 0 {
        SegmentMeansStarsSlash(g, ts, v, k);
      }
    }
  }

  // A pattern starting with `**/` matches exactly when the rest matches from the beginning of
  // the normalised path or from just after one of its separators.
  lemma DoubleStarMeansAnyDirectories(g: ClassSemantics, value: string, p: string)
    ensures PathMatches(g, value, "**/" + p) <==>
            MatchesFromSegment(g, Tokens(NormalizePath(p)), NormalizePath(value))
  {
    var q := NormalizeAfterDoubleStar(p);
    TwoCandidates(g, Tokens(q), NormalizePath(value));
  }

  lemma TokensOfLiteralPrefix(s: string, p: string)
    requires forall i :: 0 <= i < |s| ==> s[i] !in {'*', '?', '['}
    ensures Tokens(s + p) == CharTokens(s) + Tokens(p)
  {
    if s == "" {
      assert s + p == p;
    } else {
      assert (s + p)[1..] == s[1..] + p;
      TokensOfLiteralPrefix(s[1..], p);
      assert CharTokens(s) == [CharToken(s[0])] + CharTokens(s[1..]);
    }
  }

  predicate PlainText(s: string) {
    forall i :: 0 <= i < |s| ==> s[i] !in {'*', '?', '['}
  }

  /** A directory start from which the path goes on with whole segments `lit` and then matches `ts`. */
  ghost predicate SegmentsThen(g: ClassSemantics, v: string, lit: string, ts: seq<Token>) {
    exists k :: SegmentStart(v, k) && lit <= v[k..] && Match(g, ts, v[k..][|lit|..])
  }

  lemma PrefixThen(g: ClassSemantics, lit: string, rest: string, v: string)
    requires PlainText(lit)
    ensures Match(g, Tokens(lit + rest), v) <==> lit <= v && Match(g, Tokens(rest), v[|lit|..])
  {
    TokensOfLiteralPrefix(lit, rest);
    if Match(g, Tokens(lit + rest), v) {
      var n := MatchSplit(g, CharTokens(lit), Tokens(rest), v);
      LiteralLanguage(g, lit, v[..n]);
    }
    if lit <= v && Match(g, Tokens(rest), v[|lit|..]) {
      LiteralLanguage(g, lit, lit);
      MatchJoin(g, CharTokens(lit), Tokens(rest), lit, v[|lit|..]);
      assert lit + v[|lit|..] == v;
    }
  }

  // Complete segments: a pattern `**/name/rest` matches exactly the paths in which `name` is a whole
  // segment and `rest` matches what follows it, so `mysecrets/x` is never caught by a pattern for
  // `secrets`. Capitals and backslashes of the name are folded like those of the path.
  lemma DoubleStarRespectsSegments(g: ClassSemantics, value: string, name: string, rest: string)
    requires PlainText(name)
    ensures PathMatches(g, value, "**/" + name + "/" + rest)
            <==> SegmentsThen(g, NormalizePath(value), NormalizePath(name) + "/", Tokens(NormalizePath(rest)))
  {
    var v, lit, tail := NormalizePath(value), NormalizePath(name) + "/", NormalizePath(rest);
    assert "**/" + name + "/" + rest == "**/" + (name + "/" + rest);
    DoubleStarMeansAnyDirectories(g, value, name + "/" + rest);
    assert NormalizePath(name + "/" + rest) == lit + tail;
    forall k | SegmentStart(v, k)
      ensures Match(g, Tokens(lit + tail), v[k..]) <==> lit <= v[k..] && Match(g, Tokens(tail), v[k..][|lit|..])
    {
      PrefixThen(g, lit, tail, v[k..]);
    }
    if MatchesFromSegment(g, Tokens(lit + tail), v) {
      var k :| SegmentStart(v, k) && Match(g, Tokens(lit + tail), v[k..]);
      assert lit <= v[k..] && Match(g, Tokens(tail), v[k..][|lit|..]);
    }
  }

  // And a pattern that ends in the segment, `**/name`, matches exactly the paths whose last segments
  // it names.
  lemma DoubleStarNamesLastSegment(g: ClassSemantics, value: string, name: string)
    requires PlainText(name)
    ensures PathMatches(g, value, "**/" + name)
            <==> exists k :: SegmentStart(NormalizePath(value), k) && NormalizePath(value)[k..] == NormalizePath(name)
  {
    var v, lit := NormalizePath(value), NormalizePath(name);
    DoubleStarMeansAnyDirectories(g, value, name);
    TokensOfLiteralPrefix(lit, "");
    assert lit + "" == lit && Tokens(lit) == CharTokens(lit);
    forall k | SegmentStart(v, k) ensures Match(g, Tokens(lit), v[k..]) <==> v[k..] == lit {
      LiteralLanguage(g, lit, v[k..]);
    }
    if k :| SegmentStart(v, k) && v[k..] == lit {
      assert Match(g, Tokens(lit), v[k..]);
    }
  }
}
