/**
 * Which files a discovery selects and which trees it accepts, read off names, paths and routes.
 */
module WorkspaceMeaning {
  import opened Basics
  import opened Matching
  import opened GitDiff
  import opened GitDiffMeaning
  import opened Workspace
  import opened WorkspaceTheorems

  // ----- which files --------------------------------------------------------------------------------------------

  predicate ConfigNamed(name: string) {
    var folded := Lower(name);
    || folded == ".mcp.json" || folded == "mcp.json" || folded == "mcp-config.json" || folded == "claude_desktop_config.json"
  }

  /** The path, as a POSIX path below the root, belongs to a pattern as a whole, whatever the case. */
  predicate PatternSelects(o: Options, path: Path) {
    path != [] && exists p :: p in o.patterns && NameMatches(o.inClass, JoinWith(path, '/'), p)
  }

  /** A known configuration name anywhere, or a path that a pattern selects. */
  predicate Chosen(o: Options, path: Path) {
    path != [] && (ConfigNamed(path[|path| - 1]) || PatternSelects(o, path))
  }

  lemma SelectedIff(o: Options, path: Path)
    requires path != []
    ensures Selected(o, path, path[|path| - 1]) <==> Chosen(o, path)
  {
    forall p | p in o.patterns
      ensures Match(o.inClass, Tokens(Lower(p)), Lower(Relative(path))) <==> NameMatches(o.inClass, JoinWith(path, '/'), p)
    {
    }
  }

  predicate JsonNamed(name: string) {
    |name| > 5 && Lower(name[|name| - 5..]) == ".json"
  }

  lemma IsJsonIff(name: string)
    ensures IsJson(name) <==> JsonNamed(name)
  {
    var pieces := SplitOn(name, '.');
    var last := pieces[|pieces| - 1];
    var head := LastPiece(name, '.');
    if IsJson(name) {
      assert |Suffix(name)| == 5 && name[|name| - 5..] == Suffix(name);
    }
    if JsonNamed(name) {
      JsonIsSuffix(name);
    }
  }

  lemma JsonIsSuffix(name: string)
    requires JsonNamed(name)
    ensures IsJson(name)
  {
    var tail := name[|name| - 5..];
    var extension := tail[1..];
    assert Lower(tail)[0] == LowerChar(tail[0]) && tail[0] == '.';
    forall i | 0 <= i < 4
      ensures extension[i] != '.'
    {
      assert Lower(tail)[i + 1] == LowerChar(tail[i + 1]) && ".json"[i + 1] != '.';
    }
    assert name[|name| - |extension| - 1..] == "." + extension;
    ExtensionIsSuffix(name, extension);
    assert "." + extension == tail;
  }

  // ----- which trees --------------------------------------------------------------------------------------------

  /** An entry that refuses nothing: its kind is known, a chosen one is no link, and a chosen file is JSON. */
  predicate Harmless(o: Options, e: Entry, path: Path) {
    && !e.Unverifiable? && (e.Link? ==> !Chosen(o, path)) && (e.File? && Chosen(o, path) ==> JsonNamed(e.name))
  }

  predicate SkippedDirectory(name: string) {
    var folded := Lower(name);
    || folded == ".git" || folded == ".hg" || folded == ".svn" || folded == ".venv" || folded == "venv"
    || folded == "node_modules" || folded == "__pycache__" || folded == "build" || folded == "dist"
  }

  /** A chain of directories that are not skipped, each listed in the one before. */
  predicate Chain(entries: seq<Entry>, route: seq<Entry>) {
    route == [] || (route[0] in entries && route[0].Directory? && !SkippedDirectory(route[0].name) && Chain(route[0].listing, route[1..]))
  }

  function EndOfChain(entries: seq<Entry>, route: seq<Entry>): seq<Entry>
    decreases |route|
  {
    if route == [] then entries
    else if route[0].Directory? then EndOfChain(route[0].listing, route[1..]) else []
  }

  /** The chain stays within the depth, can be read, and ends in a directory of harmless entries. */
  predicate ChainIsFine(o: Options, entries: seq<Entry>, dir: Path, depth: nat, route: seq<Entry>) {
    && (route != [] ==> depth + |route| <= o.maxDepth)
    && (forall d :: d in route ==> d.Directory? && d.readable)
    && forall e :: e in EndOfChain(entries, route) ==> Harmless(o, e, dir + Names(route) + [e.name])
  }

  ghost predicate ChainsAreFine(o: Options, entries: seq<Entry>, dir: Path, depth: nat) {
    forall route :: Chain(entries, route) ==> ChainIsFine(o, entries, dir, depth, route)
  }

  lemma HarmlessIff(o: Options, e: Entry, dir: Path, depth: nat)
    requires !e.Directory?
    ensures CleanEntry(o, e, dir, depth) <==> Harmless(o, e, dir + [e.name])
  {
    SelectedIff(o, dir + [e.name]);
    IsJsonIff(e.name);
  }

  lemma LongerChain(o: Options, entries: seq<Entry>, dir: Path, depth: nat, d: Entry, route: seq<Entry>)
    requires d.Directory? && d.readable && depth < o.maxDepth
    ensures ChainIsFine(o, entries, dir, depth, [d] + route) <==> ChainIsFine(o, d.listing, dir + [d.name], depth + 1, route)
  {
    var all := [d] + route;
    assert all[1..] == route;
    assert dir + Names(all) == dir + [d.name] + Names(route);
    assert forall x :: x in all <==> x == d || x in route;
  }

  /** What is fine about a directory is fine about every chain through it. */
  lemma {:induction false} CleanChain(o: Options, entries: seq<Entry>, dir: Path, depth: nat, route: seq<Entry>)
    requires Clean(o, entries, dir, depth) && Chain(entries, route)
    ensures ChainIsFine(o, entries, dir, depth, route)
    decreases |route|
  {
    if route == [] {
      forall e | e in entries
        ensures Harmless(o, e, dir + Names([]) + [e.name])
      {
        assert CleanEntry(o, e, dir, depth) && dir + Names([]) == dir;
        if !e.Directory? {
          HarmlessIff(o, e, dir, depth);
        }
      }
    } else {
      var d := route[0];
      assert CleanEntry(o, d, dir, depth);
      CleanChain(o, d.listing, dir + [d.name], depth + 1, route[1..]);
      assert route == [d] + route[1..];
      LongerChain(o, entries, dir, depth, d, route[1..]);
    }
  }

  lemma ChainThrough(o: Options, entries: seq<Entry>, dir: Path, depth: nat, d: Entry)
    requires ChainsAreFine(o, entries, dir, depth) && d in entries && d.Directory? && !SkippedDirectory(d.name)
    ensures depth < o.maxDepth && d.readable && ChainsAreFine(o, d.listing, dir + [d.name], depth + 1)
  {
    assert [d][1..] == [] && Chain(entries, [d]);
    assert ChainIsFine(o, entries, dir, depth, [d]) && d in [d];
    forall route | Chain(d.listing, route)
      ensures ChainIsFine(o, d.listing, dir + [d.name], depth + 1, route)
    {
      assert ([d] + route)[1..] == route;
      assert Chain(entries, [d] + route);
      LongerChain(o, entries, dir, depth, d, route);
    }
  }

  lemma {:induction false} FineChainsAreClean(o: Options, entries: seq<Entry>, dir: Path, depth: nat)
    requires ChainsAreFine(o, entries, dir, depth)
    ensures Clean(o, entries, dir, depth)
    decreases entries
  {
    forall e | e in entries
      ensures CleanEntry(o, e, dir, depth)
    {
      if e.Directory? {
        if !SkippedDirectory(e.name) {
          ChainThrough(o, entries, dir, depth, e);
          FineChainsAreClean(o, e.listing, dir + [e.name], depth + 1);
        }
      } else {
        HarmlessIff(o, e, dir, depth);
        assert Chain(entries, []) && ChainIsFine(o, entries, dir, depth, []);
        assert dir + Names([]) == dir;
      }
    }
  }

  // A tree is discoverable if and only if its root can be read, no chain of its directories is too deep,
  // unreadable, or leads to an entry that refuses, and the entries and the files found stay within their limits.
  lemma DiscoverableIff(o: Options, readable: bool, root: seq<Entry>)
    ensures Discoverable(o, readable, root)
            <==> readable && ChainsAreFine(o, root, [], 0) && Seen(root) <= 20_000 && |Files(o, root, [])| <= o.maxFiles
  {
    if Clean(o, root, [], 0) {
      forall route | Chain(root, route)
        ensures ChainIsFine(o, root, [], 0, route)
      {
        CleanChain(o, root, [], 0, route);
      }
    }
    if ChainsAreFine(o, root, [], 0) {
      FineChainsAreClean(o, root, [], 0);
    }
  }

  // ----- what is found ------------------------------------------------------------------------------------------

  /** A route of directories that are not skipped to a file whose path is chosen. */
  predicate LeadsTo(o: Options, root: seq<Entry>, route: seq<Entry>, path: Path) {
    && route != [] && route[|route| - 1].File? && Chain(root, route[..|route| - 1])
    && route[|route| - 1] in EndOfChain(root, route[..|route| - 1]) && (forall d :: d in route[..|route| - 1] ==> d.Directory? && d.readable)
    && path == Names(route) && Chosen(o, path)
  }

  lemma {:induction false} RouteIff(entries: seq<Entry>, route: seq<Entry>)
    requires route != []
    ensures var init, last := route[..|route| - 1], route[|route| - 1];
            Route(entries, route)
            <==> last.File? && Chain(entries, init) && last in EndOfChain(entries, init) && forall d :: d in init ==> d.Directory? && d.readable
    decreases |route|
  {
    var init, last := route[..|route| - 1], route[|route| - 1];
    if |route| > 1 {
      var d, rest := route[0], route[1..];
      assert rest[..|rest| - 1] == init[1..] && rest[|rest| - 1] == last && init[0] == d;
      if d.Directory? {
        RouteIff(d.listing, rest);
        assert forall x :: x in init <==> x == d || x in init[1..];
      }
    } else {
      assert init == [];
    }
  }

  lemma {:induction false} LastName(route: seq<Entry>)
    requires route != []
    ensures |Names(route)| == |route| && Names(route)[|route| - 1] == route[|route| - 1].name
  {
    if |route| > 1 {
      LastName(route[1..]);
    } else {
      assert Names(route) == [route[0].name] + Names([]);
    }
  }

  lemma LeadsIff(o: Options, root: seq<Entry>, route: seq<Entry>, path: Path)
    ensures Leads(o, root, [], route, path) <==> LeadsTo(o, root, route, path)
  {
    if route != [] {
      RouteIff(root, route);
      LastName(route);
      assert [] + Names(route) == Names(route);
      if path == Names(route) {
        SelectedIff(o, path);
      }
    }
  }

  // What a discovery lists: exactly the regular files with a chosen path at the end of such a route, each once.
  lemma DiscoveredFilesIff(o: Options, root: seq<Entry>, found: seq<Path>)
    requires Discoverable(o, true, root) && WellNamed(root)
    requires multiset(found) == multiset(Files(o, root, [])) && Ordered(found, FoldedPath())
    ensures forall path :: path in found <==> exists route :: LeadsTo(o, root, route, path)
    ensures NoRepeats(found)
  {
    DiscoveryIsExact(o, root, found);
    forall path
      ensures path in found <==> exists route :: LeadsTo(o, root, route, path)
    {
      if route :| Leads(o, root, [], route, path) {
        LeadsIff(o, root, route, path);
      }
      if route :| LeadsTo(o, root, route, path) {
        LeadsIff(o, root, route, path);
      }
    }
  }
}
