/** Small shared vocabulary: optional values, results and a few sequence functions. */
module Basics {
  datatype Option<+T> = None | Some(value: T)

  datatype Result<+T, +E> = Ok(value: T) | Err(error: E)

  /** The elements of `xs` that satisfy `p`, in order. */
  function Filter<T>(xs: seq<T>, p: T -> bool): seq<T> {
    if xs == [] then []
    else if p(xs[0]) then [xs[0]] + Filter(xs[1..], p)
    else Filter(xs[1..], p)
  }

  lemma FilterAppend<T>(xs: seq<T>, ys: seq<T>, p: T -> bool)
    ensures Filter(xs + ys, p) == Filter(xs, p) + Filter(ys, p)
  {
    if xs == [] {
      assert xs + ys == ys;
    } else {
      assert (xs + ys)[1..] == xs[1..] + ys;
      FilterAppend(xs[1..], ys, p);
    }
  }

  lemma {:induction false} FilterAll<T>(xs: seq<T>, p: T -> bool)
    requires forall x :: x in xs ==> p(x)
    ensures Filter(xs, p) == xs
  {
    if xs != [] {
      FilterAll(xs[1..], p);
    }
  }

  lemma FilterMember<T>(xs: seq<T>, p: T -> bool, x: T)
    ensures x in Filter(xs, p) <==> x in xs && p(x)
  {
    if xs != [] {
      FilterMember(xs[1..], p, x);
      assert x in xs <==> x == xs[0] || x in xs[1..];
    }
  }

  lemma Regroup<T>(a: seq<T>, b: seq<T>, c: seq<T>)
    ensures a + b + c == a + (b + c)
  {
  }

  /** `xs` without later repetitions: every element stays at its first occurrence. */
  function Dedup<T(==)>(xs: seq<T>): seq<T> {
    if xs == [] then []
    else AppendNew(Dedup(xs[..|xs| - 1]), xs[|xs| - 1])
  }

  /** The list idiom `if x not in xs: xs.append(x)`. */
  function AppendNew<T(==)>(xs: seq<T>, x: T): seq<T> {
    if x in xs then xs else xs + [x]
  }

  predicate NoRepeats<T(==)>(xs: seq<T>) {
    forall i, j :: 0 <= i < j < |xs| ==> xs[i] != xs[j]
  }

  lemma SubsetCardinality<T>(a: set<T>, b: set<T>)
    requires a <= b
    ensures |a| <= |b|
  {
    if a != {} {
      var x :| x in a;
      SubsetCardinality(a - {x}, b - {x});
    }
  }

  /** The ASCII characters at which str.splitlines() ends a line. */
  predicate LineBreak(c: char) {
    c in {'\n', '\r', 11 as char, 12 as char, 28 as char, 29 as char, 30 as char}
  }

  function BreakAt(s: string): (n: nat)
    ensures n <= |s| && (n < |s| ==> LineBreak(s[n])) && forall i :: 0 <= i < n ==> !LineBreak(s[i])
  {
    if s == "" || LineBreak(s[0]) then 0 else 1 + BreakAt(s[1..])
  }

  /** str.splitlines() on text without carriage returns; with them, the same lines and some empty ones. */
  function SplitLines(s: string): seq<string>
    decreases |s|
  {
    if s == "" then []
    else
      var n := BreakAt(s);
      [s[..n]] + if n < |s| then SplitLines(s[n + 1..]) else []
  }

  /** ASCII characters that str.strip() and str.split() treat as blank. */
  predicate IsSpace(c: char) {
    c in {' ', '\t', '\n', '\r', 11 as char, 12 as char, 28 as char, 29 as char, 30 as char, 31 as char}
  }

  function StripLeft(s: string): string {
    if s != "" && IsSpace(s[0]) then StripLeft(s[1..]) else s
  }

  function StripRight(s: string): string {
    if s != "" && IsSpace(s[|s| - 1]) then StripRight(s[..|s| - 1]) else s
  }

  /** str.strip(). */
  function Strip(s: string): string {
    StripRight(StripLeft(s))
  }
}
