/** What discovery returns, stated without the traversal: routes through the tree. */
module WorkspaceTheorems {
  import opened Basics
  import opened Workspace

  /** A route from a listing through entered, readable directories to a regular file. */
  predicate Route(entries: seq<Entry>, route: seq<Entry>) {
    && route != [] && route[0] in entries
    && if |route| == 1 then route[0].File?
       else Entered(route[0]) && route[0].readable && Route(route[0].listing, route[1..])
  }

  function Names(route: seq<Entry>): Path {
    if route == [] then [] else [route[0].name] + Names(route[1..])
  }

  predicate Leads(o: Options, entries: seq<Entry>, dir: Path, route: seq<Entry>, path: Path) {
    Route(entries, route) && path == dir + Names(route) && Selected(o, path, route[|route| - 1].name)
  }

  lemma {:induction false} InFiles(o: Options, entries: seq<Entry>, dir: Path, e: Entry, path: Path)
    requires e in entries && path in FilesOf(o, e, dir)
    ensures path in Files(o, entries, dir)
  {
    if e != entries[0] {
      InFiles(o, entries[1..], dir, e, path);
    }
  }

  lemma {:induction false} OwnerOf(o: Options, entries: seq<Entry>, dir: Path, path: Path) returns (e: Entry)
    requires path in Files(o, entries, dir)
    ensures e in entries && path in FilesOf(o, e, dir)
  {
    e := entries[0];
    if path !in FilesOf(o, e, dir) {
      e := OwnerOf(o, entries[1..], dir, path);
    }
  }

  lemma {:induction false} RoutesAreFound(o: Options, entries: seq<Entry>, dir: Path, route: seq<Entry>, path: Path)
    requires Leads(o, entries, dir, route, path)
    ensures path in Files(o, entries, dir)
    decreases |route|
  {
    var e := route[0];
    if |route| == 1 {
      assert Names(route) == [e.name] + Names([]);
      assert path == dir + [e.name];
    } else {
      assert dir + ([e.name] + Names(route[1..])) == dir + [e.name] + Names(route[1..]);
      RoutesAreFound(o, e.listing, dir + [e.name], route[1..], path);
    }
    InFiles(o, entries, dir, e, path);
  }

  lemma {:induction false} FoundHaveRoutes(o: Options, entries: seq<Entry>, dir: Path, path: Path) returns (route: seq<Entry>)
    requires path in Files(o, entries, dir)
    ensures Leads(o, entries, dir, route, path)
    decreases entries
  {
    var e := OwnerOf(o, entries, dir, path);
    if Picked(o, e, dir) {
      route := [e];
      assert Names(route) == [e.name] + Names([]);
    } else {
      var rest := FoundHaveRoutes(o, e.listing, dir + [e.name], path);
      route := [e] + rest;
      assert route[1..] == rest;
      assert dir + ([e.name] + Names(rest)) == dir + [e.name] + Names(rest);
    }
  }

  /** The files of a tree are exactly the selected ends of its routes. */
  lemma FilesAreReachable(o: Options, entries: seq<Entry>, dir: Path, path: Path)
    ensures path in Files(o, entries, dir) <==> exists route :: Leads(o, entries, dir, route, path)
  {
    if path in Files(o, entries, dir) {
      var route := FoundHaveRoutes(o, entries, dir, path);
    }
    if exists route :: Leads(o, entries, dir, route, path) {
      var route :| Leads(o, entries, dir, route, path);
      RoutesAreFound(o, entries, dir, route, path);
    }
  }

  // ----- each file once -------------------------------------------------------------------------------------------

  /** A file system: the names in one directory differ. */
  predicate WellNamed(entries: seq<Entry>)
    decreases entries
  {
    && (forall i, j :: 0 <= i < j < |entries| ==> entries[i].name != entries[j].name)
    && (forall e :: e in entries ==> WellNamedEntry(e))
  }

  predicate WellNamedEntry(e: Entry)
    decreases e
  {
    e.Directory? ==> WellNamed(e.listing)
  }

  lemma {:induction false} PathsGoThrough(o: Options, e: Entry, dir: Path, path: Path)
    requires path in FilesOf(o, e, dir)
    ensures |path| > |dir| && path[..|dir|] == dir && path[|dir|] == e.name
    decreases e
  {
    if Picked(o, e, dir) {
    } else {
      var sub := OwnerOf(o, e.listing, dir + [e.name], path);
      PathsGoThrough(o, sub, dir + [e.name], path);
      assert path[..|dir|] == path[..|dir| + 1][..|dir|];
      assert path[|dir|] == path[..|dir| + 1][|dir|];
    }
  }

  lemma AppendNoRepeats(xs: seq<Path>, ys: seq<Path>)
    requires NoRepeats(xs) && NoRepeats(ys) && forall x :: x in xs ==> x !in ys
    ensures NoRepeats(xs + ys)
  {
    var zs := xs + ys;
    forall i, j | 0 <= i < j < |zs|
      ensures zs[i] != zs[j]
    {
      if i < |xs| {
        assert zs[i] in xs;
        assert j >= |xs| ==> zs[j] in ys;
      } else {
        assert zs[i] == ys[i - |xs|] && zs[j] == ys[j - |xs|];
      }
    }
  }

  lemma OtherName(entries: seq<Entry>, other: Entry)
    requires WellNamed(entries) && entries != [] && other in entries[1..]
    ensures other.name != entries[0].name
  {
    var k :| 0 <= k < |entries[1..]| && entries[1..][k] == other;
    assert entries[k + 1] == other;
  }

  lemma {:induction false} EachFileOnce(o: Options, entries: seq<Entry>, dir: Path)
    requires WellNamed(entries)
    ensures NoRepeats(Files(o, entries, dir))
    decreases entries
  {
    if entries != [] {
      var e, rest := entries[0], entries[1..];
      assert forall x :: x in rest ==> x in entries;
      EachFileOnce(o, rest, dir);
      EachFileOfEntryOnce(o, e, dir);
      forall path | path in FilesOf(o, e, dir)
        ensures path !in Files(o, rest, dir)
      {
        PathsGoThrough(o, e, dir, path);
        if path in Files(o, rest, dir) {
          var other := OwnerOf(o, rest, dir, path);
          PathsGoThrough(o, other, dir, path);
          OtherName(entries, other);
        }
      }
      AppendNoRepeats(FilesOf(o, e, dir), Files(o, rest, dir));
    }
  }

  lemma {:induction false} EachFileOfEntryOnce(o: Options, e: Entry, dir: Path)
    requires WellNamedEntry(e)
    ensures NoRepeats(FilesOf(o, e, dir))
    decreases e
  {
    if !Picked(o, e, dir) && Entered(e) && e.readable {
      EachFileOnce(o, e.listing, dir + [e.name]);
    }
  }

  lemma SameMultisetNoRepeats(xs: seq<Path>, ys: seq<Path>)
    requires multiset(xs) == multiset(ys) && NoRepeats(ys)
    ensures NoRepeats(xs)
  {
    forall i, j | 0 <= i < j < |xs|
      ensures xs[i] != xs[j]
    {
      if xs[i] == xs[j] {
        TwiceInMultiset(xs, i, j);
        OnceInMultiset(ys, xs[i]);
      }
    }
  }

  lemma TwiceInMultiset(xs: seq<Path>, i: int, j: int)
    requires 0 <= i < j < |xs| && xs[i] == xs[j]
    ensures multiset(xs)[xs[i]] >= 2
  {
    assert xs == xs[..j] + [xs[j]] + xs[j + 1..];
    assert xs[..j][i] == xs[i] && xs[i] in xs[..j];
  }

  lemma {:induction false} OnceInMultiset(ys: seq<Path>, y: Path)
    requires NoRepeats(ys)
    ensures multiset(ys)[y] <= 1
  {
    if ys != [] {
      OnceInMultiset(ys[1..], y);
      assert ys == [ys[0]] + ys[1..];
      if y == ys[0] {
        assert y !in ys[1..];
      }
    }
  }

  /**
   * A successful discovery lists exactly the selected ends of routes, each once, in folded path order;
   * it refused nothing it should have, and stayed within every budget.
   */
  lemma DiscoveryIsExact(o: Options, root: seq<Entry>, found: seq<Path>)
    requires Discoverable(o, true, root) && WellNamed(root)
    requires multiset(found) == multiset(Files(o, root, [])) && Ordered(found, FoldedPath())
    ensures forall path :: path in found <==> exists route :: Leads(o, root, [], route, path)
    ensures NoRepeats(found) && |found| <= o.maxFiles
  {
    EachFileOnce(o, root, []);
    SameMultisetNoRepeats(found, Files(o, root, []));
    assert |multiset(found)| == |multiset(Files(o, root, []))|;
    forall path
      ensures path in found <==> exists route :: Leads(o, root, [], route, path)
    {
      FilesAreReachable(o, root, [], path);
      assert path in found <==> path in multiset(found);
      assert path in Files(o, root, []) <==> path in multiset(Files(o, root, []));
    }
  }

  // ----- depth ------------------------------------------------------------------------------------------------------

  /** A chain of entered directories, each listed in the one before. */
  predicate DirectoryRoute(entries: seq<Entry>, route: seq<Entry>) {
    route == [] || (route[0] in entries && Entered(route[0]) && DirectoryRoute(route[0].listing, route[1..]))
  }

  /** In an accepted tree no entered directory lies deeper than the limit, and every one is readable. */
  lemma {:induction false} DepthIsRespected(o: Options, entries: seq<Entry>, dir: Path, depth: nat, route: seq<Entry>)
    requires Clean(o, entries, dir, depth) && DirectoryRoute(entries, route) && depth <= o.maxDepth
    ensures depth + |route| <= o.maxDepth && forall d :: d in route ==> d.Directory? && d.readable
    decreases |route|
  {
    if route != [] {
      assert CleanEntry(o, route[0], dir, depth);
      DepthIsRespected(o, route[0].listing, dir + [route[0].name], depth + 1, route[1..]);
    }
  }

  /** The listing at the end of a chain. */
  function EndListing(entries: seq<Entry>, route: seq<Entry>): seq<Entry>
    requires DirectoryRoute(entries, route)
  {
    if route == [] then entries else EndListing(route[0].listing, route[1..])
  }

  /** In an accepted tree no selected symbolic link is reachable, and every selected file is JSON. */
  lemma {:induction false} AcceptedTreesAreSafe(o: Options, entries: seq<Entry>, dir: Path, depth: nat, route: seq<Entry>, e: Entry)
    requires Clean(o, entries, dir, depth) && DirectoryRoute(entries, route)
    requires e in EndListing(entries, route)
    ensures !e.Unverifiable? && (e.Link? ==> !Selected(o, dir + Names(route) + [e.name], e.name))
    ensures e.File? && Selected(o, dir + Names(route) + [e.name], e.name) ==> IsJson(e.name)
    decreases |route|
  {
    if route == [] {
      assert CleanEntry(o, e, dir, depth);
      assert dir + Names(route) == dir;
    } else {
      assert CleanEntry(o, route[0], dir, depth);
      assert dir + ([route[0].name] + Names(route[1..])) == dir + [route[0].name] + Names(route[1..]);
      AcceptedTreesAreSafe(o, route[0].listing, dir + [route[0].name], depth + 1, route[1..], e);
    }
  }
}
