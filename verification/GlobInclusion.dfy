/**
 * Deciding whether every text of one glob is matched by some glob of a list: the question behind "this
 * warning is always superseded". Texts range over a finite alphabet and over given shapes (non-blank,
 * trimmed). Globs are read character by character; what is left of a glob is always one of its
 * suffixes, so the search below visits finitely many pairs.
 */
module GlobInclusion {
  import opened Basics
  import opened Matching

  type Glob = seq<Token>

  // ----- reading one character ----------------------------------------------------------------------

  /** What may be left of a glob after it has read `c`. */
  function Residuals(g: ClassSemantics, ts: Glob, c: char): seq<Glob> {
    if ts == [] then []
    else match ts[0]
      case Star => [ts] + Residuals(g, ts[1..], c)
      case AnyChar => [ts[1..]]
      case Lit(d) => if c == d then [ts[1..]] else []
      case Class(body) => if g(body, c) then [ts[1..]] else []
  }

  /** The globs that match the empty text. */
  predicate Nullable(ts: Glob) {
    forall i :: 0 <= i < |ts| ==> ts[i].Star?
  }

  lemma {:induction false} NullableMatchesNothing(g: ClassSemantics, ts: Glob)
    ensures Match(g, ts, "") <==> Nullable(ts)
  {
    if ts != [] {
      NullableMatchesNothing(g, ts[1..]);
      if ts[0].Star? && Nullable(ts[1..]) {
        forall i | 0 <= i < |ts| ensures ts[i].Star? {
          assert i > 0 ==> ts[i] == ts[1..][i - 1];
        }
      }
    }
  }

  ghost predicate SomeMatches(g: ClassSemantics, globs: seq<Glob>, v: string) {
    exists i :: 0 <= i < |globs| && Match(g, globs[i], v)
  }

  lemma {:induction false} ResidualsMatch(g: ClassSemantics, ts: Glob, v: string)
    requires v != ""
    ensures Match(g, ts, v) <==> SomeMatches(g, Residuals(g, ts, v[0]), v[1..])
  {
    var rs := Residuals(g, ts, v[0]);
    if ts != [] {
      if ts[0].Star? {
        var rest := Residuals(g, ts[1..], v[0]);
        ResidualsMatch(g, ts[1..], v);
        if SomeMatches(g, rest, v[1..]) {
          var i :| 0 <= i < |rest| && Match(g, rest[i], v[1..]);
          assert rs[i + 1] == rest[i];
        }
        if SomeMatches(g, rs, v[1..]) {
          var i :| 0 <= i < |rs| && Match(g, rs[i], v[1..]);
          assert i > 0 ==> rest[i - 1] == rs[i];
        }
        if Match(g, ts, v[1..]) {
          assert rs[0] == ts;
        }
      } else if rs != [] {
        assert rs[0] == ts[1..];
      }
    }
  }

  predicate IsSuffix(a: Glob, b: Glob) {
    |a| <= |b| && a == b[|b| - |a|..]
  }

  lemma {:induction false} ResidualsAreSuffixes(g: ClassSemantics, ts: Glob, c: char, whole: Glob)
    requires IsSuffix(ts, whole)
    ensures forall r :: r in Residuals(g, ts, c) ==> IsSuffix(r, whole)
  {
    if ts != [] {
      assert IsSuffix(ts[1..], whole);
      ResidualsAreSuffixes(g, ts[1..], c, whole);
    }
  }

  // ----- the shape of a text --------------------------------------------------------------------------

  /** What a text looks like at its ends: the validators ask for non-blank or for trimmed text. */
  datatype Shape = Empty | OnlyBlanks | Trimmed | BlankAfter | BlankBefore

  const ALL_SHAPES := {Empty, OnlyBlanks, Trimmed, BlankAfter, BlankBefore}
  const NON_BLANK := {Trimmed, BlankAfter, BlankBefore}

  function ShapeStep(s: Shape, c: char): Shape {
    match s
    case Empty => if IsSpace(c) then OnlyBlanks else Trimmed
    case OnlyBlanks => if IsSpace(c) then OnlyBlanks else BlankBefore
    case Trimmed => if IsSpace(c) then BlankAfter else Trimmed
    case BlankAfter => if IsSpace(c) then BlankAfter else Trimmed
    case BlankBefore => BlankBefore
  }

  function ShapeAfter(s: Shape, v: string): Shape
    decreases |v|
  {
    if v == "" then s else ShapeAfter(ShapeStep(s, v[0]), v[1..])
  }

  /** The shapes mean what they are called. */
  lemma {:induction false} ShapeMeans(s: Shape, v: string)
    ensures ShapeAfter(s, v).Empty? <==> s.Empty? && v == ""
    ensures ShapeAfter(s, v) in NON_BLANK <==> s in NON_BLANK || exists i :: 0 <= i < |v| && !IsSpace(v[i])
    ensures s.Empty? ==> (ShapeAfter(s, v).Trimmed? <==> v != "" && !IsSpace(v[0]) && !IsSpace(v[|v| - 1]))
    ensures s.Trimmed? || s.BlankAfter? ==> (ShapeAfter(s, v).Trimmed? <==> if v == "" then s.Trimmed? else !IsSpace(v[|v| - 1]))
    ensures s.OnlyBlanks? || s.BlankBefore? ==> !ShapeAfter(s, v).Trimmed?
    decreases |v|
  {
    if v != "" {
      ShapeMeans(ShapeStep(s, v[0]), v[1..]);
      if i :| 0 <= i < |v| && !IsSpace(v[i]) {
        assert i > 0 ==> v[1..][i - 1] == v[i];
      }
    }
  }

  lemma {:induction false} ShapeIgnores(s: Shape, v: string, w: string)
    requires |v| == |w| && forall i :: 0 <= i < |v| ==> IsSpace(v[i]) == IsSpace(w[i])
    ensures ShapeAfter(s, v) == ShapeAfter(s, w)
    decreases |v|
  {
    if v != "" {
      assert IsSpace(v[0]) == IsSpace(w[0]);
      ShapeIgnores(ShapeStep(s, v[0]), v[1..], w[1..]);
    }
  }

  // ----- pairs ------------------------------------------------------------------------------------------

  /** One glob still to be read against all globs that may still match, after a text of some shape. */
  datatype Pair = Pair(left: Glob, right: set<Glob>, read: Shape)

  /** What is asked: the meaning of classes, the characters of the texts, and their shapes. */
  datatype Setting = Setting(inClass: ClassSemantics, alphabet: seq<char>, shapes: set<Shape>)

  function NextRight(g: ClassSemantics, right: set<Glob>, c: char): set<Glob> {
    set q, r | q in right && r in Residuals(g, q, c) :: r
  }

  function PairsFor(lefts: seq<Glob>, right: set<Glob>, read: Shape): seq<Pair> {
    seq(|lefts|, i requires 0 <= i < |lefts| => Pair(lefts[i], right, read))
  }

  function AfterReading(g: ClassSemantics, p: Pair, c: char): seq<Pair> {
    PairsFor(Residuals(g, p.left, c), NextRight(g, p.right, c), ShapeStep(p.read, c))
  }

  function Successors(g: ClassSemantics, alphabet: seq<char>, p: Pair): seq<Pair> {
    if alphabet == [] then []
    else AfterReading(g, p, alphabet[0]) + Successors(g, alphabet[1..], p)
  }

  lemma {:induction false} SuccessorFor(g: ClassSemantics, alphabet: seq<char>, p: Pair, c: char, r: Glob)
    requires c in alphabet && r in Residuals(g, p.left, c)
    ensures Pair(r, NextRight(g, p.right, c), ShapeStep(p.read, c)) in Successors(g, alphabet, p)
  {
    if c == alphabet[0] {
      var rs := Residuals(g, p.left, c);
      var i :| 0 <= i < |rs| && rs[i] == r;
      assert AfterReading(g, p, c)[i] == Pair(r, NextRight(g, p.right, c), ShapeStep(p.read, c));
    } else {
      SuccessorFor(g, alphabet[1..], p, c, r);
    }
  }

  lemma {:induction false} SuccessorComesFrom(g: ClassSemantics, alphabet: seq<char>, p: Pair, s: Pair) returns (c: char)
    requires s in Successors(g, alphabet, p)
    ensures c in alphabet && s.left in Residuals(g, p.left, c)
            && s.right == NextRight(g, p.right, c) && s.read == ShapeStep(p.read, c)
  {
    c := alphabet[0];
    var pairs := AfterReading(g, p, c);
    if s in pairs {
      var i :| 0 <= i < |pairs| && pairs[i] == s;
      assert s.left == Residuals(g, p.left, c)[i];
    } else {
      c := SuccessorComesFrom(g, alphabet[1..], p, s);
    }
  }

  function Next(k: Setting, p: Pair): seq<Pair> {
    Successors(k.inClass, k.alphabet, p)
  }

  /** A text that counts has been read, the left glob may end here, and no right glob may. */
  predicate Bad(k: Setting, p: Pair) {
    p.read in k.shapes && Nullable(p.left) && forall q :: q in p.right ==> !Nullable(q)
  }

  // ----- the search -----------------------------------------------------------------------------------------

  ghost predicate ClosedUniverse(k: Setting, universe: set<Pair>) {
    forall p :: p in universe ==> forall s :: s in Next(k, p) ==> s in universe
  }

  ghost predicate Within(pairs: seq<Pair>, universe: set<Pair>) {
    forall p :: p in pairs ==> p in universe
  }

  /** No pair that can be reached from `todo` without passing `done` is bad. */
  predicate Explored(k: Setting, todo: seq<Pair>, done: set<Pair>, ghost universe: set<Pair>)
    requires ClosedUniverse(k, universe) && Within(todo, universe) && done <= universe
    decreases |universe - done|, |todo|
  {
    if todo == [] then true
    else if todo[0] in done then Explored(k, todo[1..], done, universe)
    else if Bad(k, todo[0]) then false
    else
      Smaller(universe, done, todo[0]);
      Explored(k, Next(k, todo[0]) + todo[1..], done + {todo[0]}, universe)
  }

  lemma Smaller(universe: set<Pair>, done: set<Pair>, p: Pair)
    requires p in universe && p !in done
    ensures |universe - (done + {p})| < |universe - done|
  {
    assert universe - (done + {p}) == (universe - done) - {p};
  }

  /** Every pair is fine, and its successors are among the pairs or still waiting. */
  ghost predicate Settled(k: Setting, done: set<Pair>, todo: seq<Pair>) {
    forall p :: p in done ==> !Bad(k, p) && forall s :: s in Next(k, p) ==> s in done || s in todo
  }

  lemma SettledStep(k: Setting, done: set<Pair>, todo: seq<Pair>)
    requires todo != [] && Settled(k, done, todo) && !Bad(k, todo[0])
    ensures Settled(k, done + {todo[0]}, Next(k, todo[0]) + todo[1..])
  {
    var done', todo' := done + {todo[0]}, Next(k, todo[0]) + todo[1..];
    forall p, s | p in done' && s in Next(k, p)
      ensures s in done' || s in todo'
    {
      if p in done && s in todo && s != todo[0] {
        assert s in todo[1..];
      }
    }
  }

  lemma SettledSkip(k: Setting, done: set<Pair>, todo: seq<Pair>)
    requires todo != [] && Settled(k, done, todo) && todo[0] in done
    ensures Settled(k, done, todo[1..])
  {
    forall p, s | p in done && s in Next(k, p)
      ensures s in done || s in todo[1..]
    {
      if s in todo && s != todo[0] {
        assert s in todo[1..];
      }
    }
  }

  /** A finished search leaves a set of fine pairs closed under reading. */
  lemma {:induction false} ExploredSettles(k: Setting, todo: seq<Pair>, done: set<Pair>, universe: set<Pair>)
    returns (all: set<Pair>)
    requires ClosedUniverse(k, universe) && Within(todo, universe) && done <= universe
    requires Explored(k, todo, done, universe) && Settled(k, done, todo)
    ensures Settled(k, all, []) && done <= all && forall p :: p in todo ==> p in all
    decreases |universe - done|, |todo|
  {
    if todo == [] {
      all := done;
    } else if todo[0] in done {
      SettledSkip(k, done, todo);
      all := ExploredSettles(k, todo[1..], done, universe);
    } else {
      SettledStep(k, done, todo);
      Smaller(universe, done, todo[0]);
      all := ExploredSettles(k, Next(k, todo[0]) + todo[1..], done + {todo[0]}, universe);
    }
  }

  // ----- what the search means ------------------------------------------------------------------------------

  ghost predicate SomeRight(g: ClassSemantics, right: set<Glob>, v: string) {
    exists q :: q in right && Match(g, q, v)
  }

  lemma NextRightMatches(g: ClassSemantics, right: set<Glob>, v: string)
    requires v != ""
    ensures SomeRight(g, right, v) <==> SomeRight(g, NextRight(g, right, v[0]), v[1..])
  {
    if SomeRight(g, right, v) {
      var q :| q in right && Match(g, q, v);
      ResidualsMatch(g, q, v);
      var rs := Residuals(g, q, v[0]);
      var i :| 0 <= i < |rs| && Match(g, rs[i], v[1..]);
      var r := rs[i];
      assert r in rs;
      assert r in NextRight(g, right, v[0]);
    }
    if SomeRight(g, NextRight(g, right, v[0]), v[1..]) {
      var r :| r in NextRight(g, right, v[0]) && Match(g, r, v[1..]);
      var q :| q in right && r in Residuals(g, q, v[0]);
      ResidualsMatch(g, q, v);
    }
  }

  predicate Over(v: string, alphabet: seq<char>) {
    forall i :: 0 <= i < |v| ==> v[i] in alphabet
  }

  /** A text the question is about, read from where a text of shape `s` ends. */
  predicate Counts(k: Setting, s: Shape, v: string) {
    Over(v, k.alphabet) && ShapeAfter(s, v) in k.shapes
  }

  lemma BadIsRefutedByNothing(k: Setting, p: Pair)
    ensures Bad(k, p) <==> p.read in k.shapes && Match(k.inClass, p.left, "") && !SomeRight(k.inClass, p.right, "")
  {
    NullableMatchesNothing(k.inClass, p.left);
    forall q | q in p.right ensures Match(k.inClass, q, "") <==> Nullable(q) {
      NullableMatchesNothing(k.inClass, q);
    }
  }

  /** Within a settled set every text of a left glob that counts belongs to some right glob. */
  lemma {:induction false} SettledIncludes(k: Setting, all: set<Pair>, p: Pair, v: string)
    requires Settled(k, all, []) && p in all && Counts(k, p.read, v) && Match(k.inClass, p.left, v)
    ensures SomeRight(k.inClass, p.right, v)
    decreases |v|
  {
    if v == "" {
      BadIsRefutedByNothing(k, p);
    } else {
      var g, c := k.inClass, v[0];
      ResidualsMatch(g, p.left, v);
      var rs := Residuals(g, p.left, c);
      var i :| 0 <= i < |rs| && Match(g, rs[i], v[1..]);
      var s := Pair(rs[i], NextRight(g, p.right, c), ShapeStep(p.read, c));
      SuccessorFor(g, k.alphabet, p, c, rs[i]);
      assert s in Next(k, p);
      SettledIncludes(k, all, s, v[1..]);
      NextRightMatches(g, p.right, v);
    }
  }

  ghost predicate Refutes(k: Setting, p: Pair, v: string) {
    Counts(k, p.read, v) && Match(k.inClass, p.left, v) && !SomeRight(k.inClass, p.right, v)
  }

  lemma RefutesThrough(k: Setting, p: Pair, s: Pair, v: string) returns (v': string)
    requires s in Next(k, p) && Refutes(k, s, v)
    ensures Refutes(k, p, v')
  {
    var g := k.inClass;
    var c := SuccessorComesFrom(g, k.alphabet, p, s);
    v' := [c] + v;
    assert v'[1..] == v;
    var rs := Residuals(g, p.left, c);
    var i :| 0 <= i < |rs| && rs[i] == s.left;
    ResidualsMatch(g, p.left, v');
    NextRightMatches(g, p.right, v');
  }

  /** A search that fails has met a text that only the left glob matches. */
  lemma {:induction false} FailedSearchRefutes(k: Setting, todo: seq<Pair>, done: set<Pair>, universe: set<Pair>)
    returns (p: Pair, v: string)
    requires ClosedUniverse(k, universe) && Within(todo, universe) && done <= universe
    requires !Explored(k, todo, done, universe)
    ensures p in todo && Refutes(k, p, v)
    decreases |universe - done|, |todo|
  {
    p := todo[0];
    if p in done {
      p, v := FailedSearchRefutes(k, todo[1..], done, universe);
    } else if Bad(k, p) {
      v := "";
      BadIsRefutedByNothing(k, p);
    } else {
      Smaller(universe, done, p);
      var q, u := FailedSearchRefutes(k, Next(k, p) + todo[1..], done + {p}, universe);
      if q in Next(k, p) {
        v := RefutesThrough(k, p, q, u);
      } else {
        p, v := q, u;
      }
    }
  }

  // ----- the decision -----------------------------------------------------------------------------------------

  ghost function Suffixes(ts: Glob): set<Glob> {
    set i | 0 <= i <= |ts| :: ts[i..]
  }

  ghost function AllSuffixes(globs: seq<Glob>): set<Glob> {
    set k, i | 0 <= k < |globs| && 0 <= i <= |globs[k]| :: globs[k][i..]
  }

  ghost function Universe(left: Glob, right: seq<Glob>): set<Pair> {
    set l, s, read | l in Suffixes(left) && s <= AllSuffixes(right) && read in ALL_SHAPES :: Pair(l, s, read)
  }

  lemma SuffixIn(a: Glob, b: Glob)
    requires IsSuffix(a, b)
    ensures a in Suffixes(b)
  {
    var i := |b| - |a|;
    assert b[i..] == a;
  }

  lemma ReadingStaysInside(g: ClassSemantics, right: seq<Glob>, s: set<Glob>, c: char)
    requires s <= AllSuffixes(right)
    ensures NextRight(g, s, c) <= AllSuffixes(right)
  {
    forall r | r in NextRight(g, s, c)
      ensures r in AllSuffixes(right)
    {
      var q :| q in s && r in Residuals(g, q, c);
      var k, i :| 0 <= k < |right| && 0 <= i <= |right[k]| && q == right[k][i..];
      assert IsSuffix(q, right[k]);
      ResidualsAreSuffixes(g, q, c, right[k]);
      assert r == right[k][|right[k]| - |r|..];
    }
  }

  lemma InUniverse(left: Glob, right: seq<Glob>, p: Pair)
    ensures p in Universe(left, right) <==> p.left in Suffixes(left) && p.right <= AllSuffixes(right)
  {
    match p.read
    case Empty | OnlyBlanks | Trimmed | BlankAfter | BlankBefore => assert p.read in ALL_SHAPES;
    assert p == Pair(p.left, p.right, p.read);
  }

  lemma SuccessorStaysInside(k: Setting, left: Glob, right: seq<Glob>, p: Pair, s: Pair)
    requires p.left in Suffixes(left) && p.right <= AllSuffixes(right) && s in Next(k, p)
    ensures s.left in Suffixes(left) && s.right <= AllSuffixes(right)
  {
    var c := SuccessorComesFrom(k.inClass, k.alphabet, p, s);
    var i :| 0 <= i <= |left| && p.left == left[i..];
    assert IsSuffix(p.left, left);
    ResidualsAreSuffixes(k.inClass, p.left, c, left);
    SuffixIn(s.left, left);
    ReadingStaysInside(k.inClass, right, p.right, c);
  }

  lemma UniverseIsClosed(k: Setting, left: Glob, right: seq<Glob>)
    ensures ClosedUniverse(k, Universe(left, right))
  {
    forall p, s | p in Universe(left, right) && s in Next(k, p)
      ensures s in Universe(left, right)
    {
      InUniverse(left, right, p);
      SuccessorStaysInside(k, left, right, p, s);
      InUniverse(left, right, s);
    }
  }

  function SetOf(globs: seq<Glob>): set<Glob> {
    set q | q in globs
  }

  lemma StartIsInside(left: Glob, right: seq<Glob>)
    ensures Pair(left, SetOf(right), Empty) in Universe(left, right)
  {
    InUniverse(left, right, Pair(left, SetOf(right), Empty));
    assert left[0..] == left;
    forall q | q in SetOf(right) ensures q in AllSuffixes(right) {
      var k :| 0 <= k < |right| && right[k] == q;
      assert right[k][0..] == q;
    }
  }

  /** Is every text that counts and that `left` matches matched by one of `right`? */
  predicate Included(k: Setting, left: Glob, right: seq<Glob>) {
    UniverseIsClosed(k, left, right);
    StartIsInside(left, right);
    Explored(k, [Pair(left, SetOf(right), Empty)], {}, Universe(left, right))
  }

  /** The search decides inclusion, both ways. */
  lemma IncludedIff(k: Setting, left: Glob, right: seq<Glob>)
    ensures Included(k, left, right)
            <==> forall v :: Counts(k, Empty, v) && Match(k.inClass, left, v) ==> SomeMatches(k.inClass, right, v)
  {
    var start, universe := Pair(left, SetOf(right), Empty), Universe(left, right);
    UniverseIsClosed(k, left, right);
    StartIsInside(left, right);
    forall v ensures SomeRight(k.inClass, SetOf(right), v) <==> SomeMatches(k.inClass, right, v) {
      if SomeMatches(k.inClass, right, v) {
        var i :| 0 <= i < |right| && Match(k.inClass, right[i], v);
        assert right[i] in SetOf(right);
      }
      if SomeRight(k.inClass, SetOf(right), v) {
        var q :| q in SetOf(right) && Match(k.inClass, q, v);
        var i :| 0 <= i < |right| && right[i] == q;
      }
    }
    if Included(k, left, right) {
      var all := ExploredSettles(k, [start], {}, universe);
      forall v | Counts(k, Empty, v) && Match(k.inClass, left, v) ensures SomeMatches(k.inClass, right, v) {
        SettledIncludes(k, all, start, v);
      }
    } else {
      var p, v := FailedSearchRefutes(k, [start], {}, universe);
    }
  }
}
