/**
 * What the patterns of matching.py mean, independently of how they are matched: the language of a token
 * list, where a bracket class ends, and what text, name, path and domain patterns accept.
 */
module GlobLanguage {
  import opened Basics
  import opened Matching

  // ----- the language of a token list -----------------------------------------------------------------------

  /** What one token stands for. */
  predicate Takes(g: ClassSemantics, t: Token, s: string) {
    match t
    case Star => true
    case AnyChar => |s| == 1
    case Lit(c) => s == [c]
    case Class(body) => |s| == 1 && g(body, s[0])
  }

  function Joined(parts: seq<string>): string {
    if parts == [] then "" else parts[0] + Joined(parts[1..])
  }

  /** `v` cut into one part for each token. */
  predicate CutsInto(g: ClassSemantics, ts: seq<Token>, v: string, parts: seq<string>) {
    |parts| == |ts| && Joined(parts) == v && forall i :: 0 <= i < |ts| ==> Takes(g, ts[i], parts[i])
  }

  lemma {:induction false} MatchHasCuts(g: ClassSemantics, ts: seq<Token>, v: string) returns (parts: seq<string>)
    requires Match(g, ts, v)
    ensures CutsInto(g, ts, v, parts)
    decreases |ts| + |v|
  {
    if ts == [] {
      parts := [];
    } else if ts[0].Star? && Match(g, ts[1..], v) {
      var rest := MatchHasCuts(g, ts[1..], v);
      parts := [""] + rest;
      assert parts[1..] == rest;
    } else if ts[0].Star? {
      var rest := MatchHasCuts(g, ts, v[1..]);
      parts := [[v[0]] + rest[0]] + rest[1..];
      assert parts[1..] == rest[1..];
      assert v == [v[0]] + v[1..];
    } else {
      var rest := MatchHasCuts(g, ts[1..], v[1..]);
      parts := [[v[0]]] + rest;
      assert parts[1..] == rest;
      assert v == [v[0]] + v[1..];
    }
  }

  lemma {:induction false} StarTakes(g: ClassSemantics, ts: seq<Token>, skipped: string, v: string)
    requires ts != [] && ts[0].Star? && Match(g, ts[1..], v)
    ensures Match(g, ts, skipped + v)
  {
    if skipped == "" {
      assert skipped + v == v;
    } else {
      StarTakes(g, ts, skipped[1..], v);
      assert (skipped + v)[1..] == skipped[1..] + v;
    }
  }

  lemma {:induction false} CutsMatch(g: ClassSemantics, ts: seq<Token>, v: string, parts: seq<string>)
    requires CutsInto(g, ts, v, parts)
    ensures Match(g, ts, v)
    decreases |ts|
  {
    if ts != [] {
      var rest := Joined(parts[1..]);
      CutsMatch(g, ts[1..], rest, parts[1..]);
      assert Takes(g, ts[0], parts[0]);
      if ts[0].Star? {
        StarTakes(g, ts, parts[0], rest);
      } else {
        assert v == [parts[0][0]] + rest;
      }
    }
  }

  // A text belongs to a token list if and only if it can be cut into parts, one for each token: any text
  // for a star, one character for a question mark or a class that admits it, the character itself otherwise.
  lemma MatchIff(g: ClassSemantics, ts: seq<Token>, v: string)
    ensures Match(g, ts, v) <==> exists parts :: CutsInto(g, ts, v, parts)
  {
    if Match(g, ts, v) {
      var parts := MatchHasCuts(g, ts, v);
    }
    if parts :| CutsInto(g, ts, v, parts) {
      CutsMatch(g, ts, v, parts);
    }
  }

  // ----- bracket classes ------------------------------------------------------------------------------------

  /** `]` at position `e` can close the class that starts the pattern: its body has a character besides `!`. */
  predicate Closes(p: string, e: int) {
    && 0 < e < |p| && p[0] == '[' && p[e] == ']'
    && (if p[1] == '!' then e > 2 else e > 1)
  }

  // A class ends at the first closing bracket after a body that is not empty, and without one `[` is literal.
  lemma ClassEndsAtFirst(p: string)
    requires p != ""
    ensures ClassEnd(p).None? <==> forall e :: 0 < e < |p| ==> !Closes(p, e)
    ensures ClassEnd(p).Some? ==> Closes(p, ClassEnd(p).value) && forall e :: 0 < e < ClassEnd(p).value ==> !Closes(p, e)
  {
    if p[0] == '[' {
      var s := ClassSearchStart(p);
      forall e | 0 < e < |p| && (e < s || p[e] != ']')
        ensures !Closes(p, e)
      {
      }
      if ClassEnd(p).Some? {
        FirstFound(p, ']', s);
        assert Closes(p, ClassEnd(p).value);
      } else {
        forall e | 0 < e < |p|
          ensures !Closes(p, e)
        {
          assert e < s || p[e] != ']';
        }
      }
    }
  }

  lemma {:induction false} FirstFound(s: string, c: char, from: nat)
    requires FindChar(s, c, from).Some?
    ensures forall j :: from <= j < FindChar(s, c, from).value ==> s[j] != c
    decreases |s| - from
  {
    if s[from] != c {
      FirstFound(s, c, from + 1);
    }
  }

  // ----- patterns inside texts ------------------------------------------------------------------------------

  lemma {:induction false} FindAppended(s: string, c: char, d: char, from: nat)
    requires c != d
    ensures FindChar(s + [d], c, from) == FindChar(s, c, from)
    decreases |s| + 1 - from
  {
    if from < |s| + 1 {
      FindAppended(s, c, d, from + 1);
    }
  }

  lemma ClassEndStarred(p: string)
    requires p != ""
    ensures ClassEnd(p + "*") == ClassEnd(p)
  {
    assert (p + "*")[0] == p[0];
    if p[0] == '[' {
      assert ClassSearchStart(p + "*") == ClassSearchStart(p);
      FindAppended(p, ']', '*', ClassSearchStart(p));
    }
  }

  lemma StarredHead(p: string, rest: string)
    requires p != "" && rest == p[1..] && (p[0] == '*' || p[0] == '?' || ClassEnd(p).None?)
    requires Tokens(rest + "*") == Tokens(rest) + [Star]
    ensures Tokens(p + "*") == Tokens(p) + [Star]
  {
    ClassEndStarred(p);
    assert (p + "*")[1..] == rest + "*" && (p + "*")[0] == p[0];
  }

  lemma TokensOfClass(p: string, end: nat, body: string, rest: string)
    requires p != "" && ClassEnd(p) == Some(end) && body == p[1..end] && rest == p[end + 1..]
    ensures Tokens(p) == [Class(body)] + Tokens(rest)
  {
  }

  lemma StarredSlices(p: string, end: nat)
    requires 1 <= end < |p|
    ensures (p + "*")[1..end] == p[1..end] && (p + "*")[end + 1..] == p[end + 1..] + "*"
  {
  }

  lemma StarredClass(p: string, end: nat, rest: string, tokens: seq<Token>)
    requires p != "" && ClassEnd(p) == Some(end) && rest == p[end + 1..]
    requires tokens == Tokens(rest) && Tokens(rest + "*") == tokens + [Star]
    ensures Tokens(p + "*") == Tokens(p) + [Star]
  {
    ClassEndStarred(p);
    StarredSlices(p, end);
    TokensOfClass(p, end, p[1..end], rest);
    TokensOfClass(p + "*", end, p[1..end], rest + "*");
    Regroup([Class(p[1..end])], tokens, [Star]);
  }

  /** A star at the end closes and opens nothing. */
  lemma {:induction false} TokensStarred(p: string)
    ensures Tokens(p + "*") == Tokens(p) + [Star]
    decreases |p|
  {
    if p == "" {
      assert p + "*" == "*" && "*"[1..] == "";
    } else if p[0] == '*' || p[0] == '?' || ClassEnd(p).None? {
      TokensStarred(p[1..]);
      StarredHead(p, p[1..]);
    } else {
      TokensStarred(p[ClassEnd(p).value + 1..]);
      StarredClass(p, ClassEnd(p).value, p[ClassEnd(p).value + 1..], Tokens(p[ClassEnd(p).value + 1..]));
    }
  }

  lemma TokensInStars(p: string)
    ensures Tokens("*" + p + "*") == [Star] + Tokens(p) + [Star]
  {
    TokensStarred("*" + p);
    TokensOfFirst('*', p);
  }

  /** A stretch of the folded text that the folded pattern accepts, or that it spells out. */
  predicate HitAt(g: ClassSemantics, value: string, pattern: string, i: int, j: int) {
    0 <= i <= j <= |value| &&
    if '*' in pattern || '?' in pattern then Match(g, Tokens(Lower(pattern)), Lower(value)[i..j])
    else Lower(value)[i..j] == Lower(pattern)
  }

  lemma FoldingKeepsWildcards(p: string)
    ensures HasWildcard(Lower(p)) <==> '*' in p || '?' in p
  {
    var v := Lower(p);
    if '*' in p {
      var i :| 0 <= i < |p| && p[i] == '*';
      assert v[i] == '*';
    }
    if '?' in p {
      var i :| 0 <= i < |p| && p[i] == '?';
      assert v[i] == '?';
    }
  }

  // Text patterns match anywhere in the text, whatever the case: with a wildcard as a glob that some stretch
  // of the text belongs to, without one as a text that occurs literally, brackets included.
  lemma TextMatchesIff(g: ClassSemantics, value: string, pattern: string)
    ensures TextMatches(g, value, pattern) <==> exists i, j :: HitAt(g, value, pattern, i, j)
  {
    var v, p := Lower(value), Lower(pattern);
    FoldingKeepsWildcards(pattern);
    if HasWildcard(p) {
      TokensInStars(p);
      if TextMatches(g, value, pattern) {
        var i, j := InsideMatch(g, Tokens(p), v);
        assert HitAt(g, value, pattern, i, j);
      }
      if i, j :| HitAt(g, value, pattern, i, j) {
        MatchInside(g, Tokens(p), v, i, j);
      }
    } else {
      if TextMatches(g, value, pattern) {
        var i :| 0 <= i <= |v| && OccursAt(v, p, i);
        assert HitAt(g, value, pattern, i, i + |p|);
      }
      if i, j :| HitAt(g, value, pattern, i, j) {
        assert OccursAt(v, p, i);
      }
    }
  }

  // ----- folding --------------------------------------------------------------------------------------------

  const CAPITALS := "ABCDEFGHIJKLMNOPQRSTUVWXYZ"
  const SMALL_LETTERS := "abcdefghijklmnopqrstuvwxyz"

  // Folding turns each capital letter into its small one and leaves every other character alone; in a path it
  // also turns backslashes into slashes.
  lemma FoldingIff(c: char, i: nat)
    requires i < 26
    ensures LowerChar(CAPITALS[i]) == SMALL_LETTERS[i]
    ensures c !in CAPITALS ==> LowerChar(c) == c
    ensures NormalizePath([c]) == if c == '\\' then "/" else Lower([c])
  {
    if 'A' <= c <= 'Z' {
      assert CAPITALS[c as int - 'A' as int] == c;
    }
  }

  // ----- whole names, paths and domains ------------------------------------------------------------------------

  lemma LiteralTokens(g: ClassSemantics, lit: string, v: string)
    requires PlainText(lit)
    ensures Match(g, Tokens(lit), v) <==> v == lit
  {
    TokensOfLiteralPrefix(lit, "");
    assert lit + "" == lit && Tokens(lit) == CharTokens(lit);
    LiteralLanguage(g, lit, v);
  }

  lemma LoweredIsPlain(s: string)
    ensures PlainText(s) ==> PlainText(Lower(s)) && PlainText(NormalizePath(s))
  {
  }

  // A tool name without pattern characters names exactly itself, whatever the case.
  lemma PlainNameMatchesIff(g: ClassSemantics, value: string, name: string)
    requires PlainText(name)
    ensures NameMatches(g, value, name) <==> Lower(value) == Lower(name)
  {
    LoweredIsPlain(name);
    LiteralTokens(g, Lower(name), Lower(value));
  }

  // A path without pattern characters names exactly itself, whatever the case and the separators, and
  // with `/*` at the end everything below it.
  lemma PlainPathMatchesIff(g: ClassSemantics, value: string, path: string)
    requires PlainText(path)
    ensures PathMatches(g, value, path) <==> NormalizePath(value) == NormalizePath(path)
    ensures PathMatches(g, value, path + "/*") <==> NormalizePath(path) + "/" <= NormalizePath(value)
  {
    var v, lit := NormalizePath(value), NormalizePath(path);
    LoweredIsPlain(path);
    LiteralTokens(g, lit, v);
    assert "**/"[0] == '*' && (lit != "" ==> lit[0] != '*');
    assert NormalizePath(path + "/*") == lit + "/" + "*";
    PrefixThen(g, lit + "/", "*", v);
    assert (lit + "/" + "*")[0] == if lit == "" then '/' else lit[0];
    if lit + "/" <= v {
      StarMatchesEverything(g, v[|lit| + 1..]);
      assert Tokens("*") == [Star] by {
        TokensOfFirst('*', "");
        assert ['*'] + "" == "*";
      }
    }
  }

  predicate OnlyDots(s: string) {
    forall i :: 0 <= i < |s| ==> s[i] == '.'
  }

  /** The name without its trailing dots. */
  lemma {:induction false} DotsAreStripped(s: string)
    ensures var r := StripTrailingDots(s);
            r <= s && OnlyDots(s[|r|..]) && (r == "" || r[|r| - 1] != '.')
  {
    if s != "" && s[|s| - 1] == '.' {
      DotsAreStripped(s[..|s| - 1]);
      var r := StripTrailingDots(s);
      assert s[|r|..] == s[..|s| - 1][|r|..] + ".";
    }
  }

  /** `domain` is `name` up to case and trailing dots. */
  predicate SameDomain(domain: string, name: string) {
    StripTrailingDots(Lower(domain)) == StripTrailingDots(Lower(name))
  }

  lemma {:induction false} StrippedIsPlain(s: string)
    requires PlainText(s)
    ensures PlainText(StripTrailingDots(s))
  {
    DotsAreStripped(s);
  }

  /** A domain that ends in a dot and `name`, up to case and trailing dots. */
  predicate Subdomain(domain: string, name: string) {
    var d, tail := StripTrailingDots(Lower(domain)), "." + StripTrailingDots(Lower(name));
    |tail| <= |d| && d[|d| - |tail|..] == tail
  }

  lemma {:induction false} StripAfter(head: string, s: string)
    requires StripTrailingDots(s) != ""
    ensures StripTrailingDots(head + s) == head + StripTrailingDots(s)
  {
    if s[|s| - 1] == '.' {
      assert (head + s)[..|head + s| - 1] == head + s[..|s| - 1];
      StripAfter(head, s[..|s| - 1]);
    }
  }

  lemma StarThen(g: ClassSemantics, ts: seq<Token>, v: string)
    ensures Match(g, [Star] + ts, v) <==> exists k :: 0 <= k <= |v| && Match(g, ts, v[k..])
  {
    if Match(g, [Star] + ts, v) {
      var k := MatchSplit(g, [Star], ts, v);
    }
    if k :| 0 <= k <= |v| && Match(g, ts, v[k..]) {
      StarMatchesEverything(g, v[..k]);
      MatchJoin(g, [Star], ts, v[..k], v[k..]);
      assert v[..k] + v[k..] == v;
    }
  }

  lemma StarThenLiteral(g: ClassSemantics, lit: string, v: string)
    requires PlainText(lit)
    ensures Match(g, Tokens("*" + lit), v) <==> |lit| <= |v| && v[|v| - |lit|..] == lit
  {
    TokensOfFirst('*', lit);
    StarThen(g, Tokens(lit), v);
    forall k | 0 <= k <= |v|
      ensures Match(g, Tokens(lit), v[k..]) <==> v[k..] == lit
    {
      LiteralTokens(g, lit, v[k..]);
    }
  }

  // A domain without pattern characters names exactly itself; case and trailing dots never matter.
  lemma PlainDomainMatchesIff(g: ClassSemantics, domain: string, name: string)
    requires PlainText(name)
    ensures DomainMatches(g, domain, name) <==> SameDomain(domain, name)
  {
    LoweredIsPlain(name);
    StrippedIsPlain(Lower(name));
    LiteralTokens(g, StripTrailingDots(Lower(name)), StripTrailingDots(Lower(domain)));
  }

  lemma BelowPattern(name: string, n: string)
    requires n == StripTrailingDots(Lower(name)) && n != ""
    ensures StripTrailingDots(Lower("*." + name)) == "*" + ("." + n)
  {
    assert Lower("*." + name) == "*." + Lower(name);
    StripAfter("*.", Lower(name));
  }

  lemma PlainBelow(name: string, tail: string)
    requires PlainText(name) && tail == "." + StripTrailingDots(Lower(name))
    ensures PlainText(tail)
  {
    LoweredIsPlain(name);
    StrippedIsPlain(Lower(name));
  }

  lemma MatchesBelow(g: ClassSemantics, domain: string, name: string, d: string, pattern: string)
    requires d == StripTrailingDots(Lower(domain)) && pattern == StripTrailingDots(Lower("*." + name))
    ensures DomainMatches(g, domain, "*." + name) <==> Match(g, Tokens(pattern), d)
  {
  }

  // With `*.` before it, it names exactly the domains below it, not the domain itself.
  lemma SubdomainsMatchIff(g: ClassSemantics, domain: string, name: string)
    requires PlainText(name) && StripTrailingDots(Lower(name)) != ""
    ensures DomainMatches(g, domain, "*." + name) <==> Subdomain(domain, name)
  {
    var n, d := StripTrailingDots(Lower(name)), StripTrailingDots(Lower(domain));
    BelowPattern(name, n);
    PlainBelow(name, "." + n);
    StarThenLiteral(g, "." + n, d);
    MatchesBelow(g, domain, name, d, "*" + ("." + n));
  }
}
