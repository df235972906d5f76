/**
 * Which policies load, without the recursion that loads them: every chain of includes, every file on it,
 * and what is read in all.
 */
module PolicyLoading {
  import opened Basics
  import opened Inheritance

  // ----- every chain of includes ------------------------------------------------------------------------------

  /** A file that can be read: there, valid, at most one mebibyte, with a known profile and no refused include. */
  predicate FileIsGood(w: World, path: Path) {
    && path in w.files && w.files[path].valid && w.files[path].size <= 1_048_576
    && (match w.files[path].profile
        case Some(name) => name in w.profiles
        case None => true)
    && forall i :: 0 <= i < |w.files[path].includes| ==> w.files[path].includes[i].Some?
  }

  /** A chain of at most so many files that starts at `path` and ends at a good one. */
  predicate ChainIsGood(w: World, path: Path, chain: seq<Path>, levels: nat) {
    0 < |chain| <= levels && FileIsGood(w, chain[|chain| - 1])
  }

  ghost predicate ChainsAreGood(w: World, path: Path, levels: nat) {
    forall chain :: IncludeWalk(w, chain) && chain[0] == path ==> ChainIsGood(w, path, chain, levels)
  }

  lemma {:induction false} UnfoldedChain(w: World, chain: seq<Path>, levels: nat)
    requires IncludeWalk(w, chain) && Unfold(w, chain[0], levels).Some?
    ensures ChainIsGood(w, chain[0], chain, levels)
    decreases |chain|
  {
    if |chain| > 1 {
      IncludedIsSmaller(w, chain[0], chain[1], levels);
      WalkTail(w, chain, 1);
      UnfoldedChain(w, chain[1..], levels - 1);
    }
  }

  lemma LongerChain(w: World, path: Path, next: Path, levels: nat)
    requires levels > 0 && ChainsAreGood(w, path, levels) && Includes(w, path, next)
    ensures ChainsAreGood(w, next, levels - 1)
  {
    forall chain | IncludeWalk(w, chain) && chain[0] == next
      ensures ChainIsGood(w, next, chain, levels - 1)
    {
      var longer := [path] + chain;
      forall i | 0 < i < |longer|
        ensures Includes(w, longer[i - 1], longer[i])
      {
        assert i > 1 ==> Includes(w, chain[i - 2], chain[i - 1]);
      }
      assert IncludeWalk(w, longer) && longer[|longer| - 1] == chain[|chain| - 1];
    }
  }

  lemma FirstFile(w: World, path: Path, levels: nat)
    requires ChainsAreGood(w, path, levels)
    ensures levels > 0 && FileIsGood(w, path)
  {
    assert IncludeWalk(w, [path]) && [path][0] == path;
  }

  lemma {:induction false} GoodChainsUnfold(w: World, path: Path, levels: nat)
    requires ChainsAreGood(w, path, levels)
    ensures Unfold(w, path, levels).Some?
    decreases levels
  {
    FirstFile(w, path, levels);
    var refs := w.files[path].includes;
    forall i | 0 <= i < |refs|
      ensures refs[i].Some? && Unfold(w, refs[i].value, levels - 1).Some?
    {
      assert Some(refs[i].value) in refs;
      LongerChain(w, path, refs[i].value, levels);
      GoodChainsUnfold(w, refs[i].value, levels - 1);
    }
  }

  // ----- what is read -----------------------------------------------------------------------------------------

  /** The files read, a file before its includes, down to `levels`; a file included twice is read twice. */
  function ReadOrder(w: World, path: Path, levels: nat): seq<Path>
    decreases levels, 0
  {
    if levels == 0 then []
    else [path] + if path in w.files then ReadAll(w, w.files[path].includes, levels - 1) else []
  }

  function ReadAll(w: World, refs: seq<Option<Path>>, levels: nat): seq<Path>
    decreases levels, 1, |refs|
  {
    if refs == [] then []
    else
      ReadAll(w, refs[..|refs| - 1], levels)
      + match refs[|refs| - 1]
        case Some(path) => ReadOrder(w, path, levels)
        case None => []
  }

  function TotalSize(w: World, paths: seq<Path>): nat {
    if paths == [] then 0
    else (if paths[0] in w.files then w.files[paths[0]].size else 0) + TotalSize(w, paths[1..])
  }

  lemma {:induction false} TotalOfTwo(w: World, a: seq<Path>, b: seq<Path>)
    ensures TotalSize(w, a + b) == TotalSize(w, a) + TotalSize(w, b)
  {
    if a == [] {
      assert a + b == b;
    } else {
      assert (a + b)[1..] == a[1..] + b;
      TotalOfTwo(w, a[1..], b);
    }
  }

  /** What a tree counts is what is read. */
  lemma {:induction false} TreeIsRead(w: World, path: Path, levels: nat)
    requires Unfold(w, path, levels).Some?
    ensures Reads(Unfold(w, path, levels).value) == |ReadOrder(w, path, levels)|
    ensures Bytes(Unfold(w, path, levels).value) == TotalSize(w, ReadOrder(w, path, levels))
    decreases levels, 0
  {
    var t, refs := Unfold(w, path, levels).value, w.files[path].includes;
    TreesAreRead(w, refs, levels - 1, t.children);
    TotalOfTwo(w, [path], ReadAll(w, refs, levels - 1));
  }

  lemma {:induction false} TreesAreRead(w: World, refs: seq<Option<Path>>, levels: nat, ts: seq<Tree>)
    requires |ts| == |refs|
    requires forall i :: 0 <= i < |refs| ==> refs[i].Some? && Unfold(w, refs[i].value, levels) == Some(ts[i])
    ensures ReadsAll(ts) == |ReadAll(w, refs, levels)| && BytesAll(ts) == TotalSize(w, ReadAll(w, refs, levels))
    decreases levels, 1, |refs|
  {
    if refs != [] {
      var n := |refs| - 1;
      TreesAreRead(w, refs[..n], levels, ts[..n]);
      TreeIsRead(w, refs[n].value, levels);
      TotalOfTwo(w, ReadAll(w, refs[..n], levels), ReadOrder(w, refs[n].value, levels));
    }
  }

  // A policy loads if and only if every chain of its includes has at most eight files and ends at a good one,
  // at most sixteen files are read in all, and they are at most four mebibytes.
  lemma LoadableIff(w: World, path: Path)
    ensures Loadable(w, path)
            <==> ChainsAreGood(w, path, 8) && |ReadOrder(w, path, 8)| <= 16 && TotalSize(w, ReadOrder(w, path, 8)) <= 4_194_304
  {
    if ChainsAreGood(w, path, 8) {
      GoodChainsUnfold(w, path, 8);
    }
    if Unfold(w, path, 8).Some? {
      forall chain | IncludeWalk(w, chain) && chain[0] == path
        ensures ChainIsGood(w, path, chain, 8)
      {
        UnfoldedChain(w, chain, 8);
      }
      TreeIsRead(w, path, 8);
    }
  }

  // ----- what a loaded policy is made of ------------------------------------------------------------------------

  /** The layers in the order in which they are applied: profile, includes from left to right, the file itself. */
  function LayerOrder(w: World, path: Path, levels: nat): seq<Layer>
    decreases levels, 0
  {
    if levels == 0 || path !in w.files then []
    else
      (match w.files[path].profile
       case Some(name) => if name in w.profiles then [Layer(ProfileSource(name), w.profiles[name])] else []
       case None => [])
      + LayersOfAll(w, w.files[path].includes, levels - 1) + [Layer(FileSource(path), w.files[path].overlay)]
  }

  function LayersOfAll(w: World, refs: seq<Option<Path>>, levels: nat): seq<Layer>
    decreases levels, 1, |refs|
  {
    if refs == [] then []
    else
      LayersOfAll(w, refs[..|refs| - 1], levels)
      + match refs[|refs| - 1]
        case Some(path) => LayerOrder(w, path, levels)
        case None => []
  }

  lemma {:induction false} TreeIsLayered(w: World, path: Path, levels: nat)
    requires Unfold(w, path, levels).Some?
    ensures Grounded(w, Unfold(w, path, levels).value)
    ensures Flatten(w, Unfold(w, path, levels).value) == LayerOrder(w, path, levels)
    decreases levels, 0
  {
    UnfoldGrounded(w, path, levels);
    var t, refs := Unfold(w, path, levels).value, w.files[path].includes;
    TreesAreLayered(w, refs, levels - 1, t.children);
  }

  lemma {:induction false} TreesAreLayered(w: World, refs: seq<Option<Path>>, levels: nat, ts: seq<Tree>)
    requires |ts| == |refs| && forall t :: t in ts ==> Grounded(w, t)
    requires forall i :: 0 <= i < |refs| ==> refs[i].Some? && Unfold(w, refs[i].value, levels) == Some(ts[i])
    ensures FlattenAll(w, ts) == LayersOfAll(w, refs, levels)
    decreases levels, 1, |refs|
  {
    if refs != [] {
      var n := |refs| - 1;
      TreesAreLayered(w, refs[..n], levels, ts[..n]);
      TreeIsLayered(w, refs[n].value, levels);
    }
  }

  // A policy that loads is the fold of exactly these layers.
  lemma LoadedFromLayers(w: World, path: Path)
    requires Loadable(w, path)
    ensures ResolvedContent(w, path, 8) == Fold(LayerOrder(w, path, 8)) && LayersOf(w, path) == LayerOrder(w, path, 8)
  {
    TreeIsLayered(w, path, 8);
  }
}
