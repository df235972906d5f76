/**
 * Workspace discovery (`_discover` and `_matches` of workspace.py): a traversal with an explicit stack
 * over a finite tree, with budgets for entries, files and depth.
 */
module Workspace {
  import opened Basics
  import opened Matching
  import opened GitDiff

  const MAX_DIRECTORY_ENTRIES := 20_000

  /** Path components below the root. */
  type Path = seq<string>

  /**
   * A directory entry as `os.scandir` reports it. A directory may turn out unreadable; the
   * type of an unverifiable entry cannot be determined; a special entry is neither file nor directory.
   */
  datatype Entry =
    | Link(name: string)
    | Directory(name: string, readable: bool, listing: seq<Entry>)
    | File(name: string)
    | Special(name: string)
    | Unverifiable(name: string)

  datatype Options = Options(inClass: ClassSemantics, patterns: seq<string>, maxDepth: nat, maxFiles: nat)

  // ----- matching -----------------------------------------------------------------------------------------------

  function Relative(path: Path): string {
    if path == [] then "." else JoinWith(path, '/')
  }

  predicate Selected(o: Options, path: Path, name: string) {
    DefaultConfigName(Lower(name))
    || exists p :: p in o.patterns && Match(o.inClass, Tokens(Lower(p)), Lower(Relative(path)))
  }

  predicate IsJson(name: string) {
    Lower(Suffix(name)) == ".json"
  }

  predicate Ignored(name: string) {
    Lower(name) in {".git", ".hg", ".svn", ".venv", "venv", "node_modules", "__pycache__", "build", "dist"}
  }

  /** A directory the traversal enters. */
  predicate Entered(e: Entry) {
    e.Directory? && !Ignored(e.name)
  }

  predicate Picked(o: Options, e: Entry, dir: Path) {
    e.File? && Selected(o, dir + [e.name], e.name)
  }

  // ----- what a traversal should find ---------------------------------------------------------------------------

  /** Nothing below makes the traversal refuse, budgets aside. */
  predicate Clean(o: Options, entries: seq<Entry>, dir: Path, depth: nat)
    decreases entries
  {
    forall e :: e in entries ==> CleanEntry(o, e, dir, depth)
  }

  predicate CleanEntry(o: Options, e: Entry, dir: Path, depth: nat)
    decreases e
  {
    match e
    case Link(name) => !Selected(o, dir + [name], name)
    case Directory(name, readable, listing) =>
      Ignored(name) || (depth < o.maxDepth && readable && Clean(o, listing, dir + [name], depth + 1))
    case File(name) => Selected(o, dir + [name], name) ==> IsJson(name)
    case Special(_) => true
    case Unverifiable(_) => false
  }

  /** Entries seen in this and all entered directories below. */
  function Seen(entries: seq<Entry>): nat
    decreases entries
  {
    if entries == [] then 0 else SeenIn(entries[0]) + Seen(entries[1..])
  }

  function SeenIn(e: Entry): nat
    decreases e
  {
    1 + if Entered(e) && e.readable then Seen(e.listing) else 0
  }

  /** The matching regular files below, entry by entry. */
  function Files(o: Options, entries: seq<Entry>, dir: Path): seq<Path>
    decreases entries
  {
    if entries == [] then [] else FilesOf(o, entries[0], dir) + Files(o, entries[1..], dir)
  }

  function FilesOf(o: Options, e: Entry, dir: Path): seq<Path>
    decreases e
  {
    if Picked(o, e, dir) then [dir + [e.name]]
    else if Entered(e) && e.readable then Files(o, e.listing, dir + [e.name])
    else []
  }

  // ----- sorting ------------------------------------------------------------------------------------------------

  predicate AtMost(a: string, b: string) {
    a == "" || (b != "" && (a[0] < b[0] || (a[0] == b[0] && AtMost(a[1..], b[1..]))))
  }

  lemma {:induction false} AtMostTotal(a: string, b: string)
    ensures AtMost(a, b) || AtMost(b, a)
  {
    if a != "" && b != "" && a[0] == b[0] {
      AtMostTotal(a[1..], b[1..]);
    }
  }

  lemma {:induction false} AtMostTransitive(a: string, b: string, c: string)
    requires AtMost(a, b) && AtMost(b, c)
    ensures AtMost(a, c)
  {
    if a != "" && a[0] == b[0] && b[0] == c[0] {
      AtMostTransitive(a[1..], b[1..], c[1..]);
    }
  }

  /** `x` after everything in the ordered `xs` that is not greater. */
  function Insert<T>(xs: seq<T>, x: T, key: T -> string): seq<T> {
    if xs == [] || AtMost(key(xs[|xs| - 1]), key(x)) then xs + [x]
    else Insert(xs[..|xs| - 1], x, key) + [xs[|xs| - 1]]
  }

  /** Python's stable sort by key. */
  function SortedBy<T>(xs: seq<T>, key: T -> string): seq<T> {
    if xs == [] then [] else Insert(SortedBy(xs[..|xs| - 1], key), xs[|xs| - 1], key)
  }

  predicate Ordered<T>(xs: seq<T>, key: T -> string) {
    forall i, j :: 0 <= i < j < |xs| ==> AtMost(key(xs[i]), key(xs[j]))
  }

  lemma {:induction false} InsertKeeps<T>(xs: seq<T>, x: T, key: T -> string)
    requires Ordered(xs, key)
    ensures Ordered(Insert(xs, x, key), key) && multiset(Insert(xs, x, key)) == multiset(xs) + multiset{x}
  {
    if xs != [] && !AtMost(key(xs[|xs| - 1]), key(x)) {
      var init, last := xs[..|xs| - 1], xs[|xs| - 1];
      InsertKeeps(init, x, key);
      AtMostTotal(key(x), key(last));
      var r := Insert(init, x, key);
      assert xs == init + [last];
      forall i | 0 <= i < |r|
        ensures AtMost(key(r[i]), key(last))
      {
        assert r[i] in multiset(r);
        if r[i] != x {
          assert r[i] in multiset(init);
        }
      }
    } else if xs != [] {
      forall i | 0 <= i < |xs|
        ensures AtMost(key(xs[i]), key(x))
      {
        if i < |xs| - 1 {
          AtMostTransitive(key(xs[i]), key(xs[|xs| - 1]), key(x));
        }
      }
    }
  }

  lemma {:induction false} SortedByIsSorted<T>(xs: seq<T>, key: T -> string)
    ensures Ordered(SortedBy(xs, key), key) && multiset(SortedBy(xs, key)) == multiset(xs)
  {
    if xs != [] {
      var init := xs[..|xs| - 1];
      SortedByIsSorted(init, key);
      InsertKeeps(SortedBy(init, key), xs[|xs| - 1], key);
      assert xs == init + [xs[|xs| - 1]];
    }
  }

  function FoldedName(): Entry -> string {
    (e: Entry) => Lower(e.name)
  }

  function FoldedPath(): Path -> string {
    (p: Path) => Lower(Relative(p))
  }

  // ----- the order of a listing does not matter --------------------------------------------------------------------

  lemma {:induction false} SeenAppend(xs: seq<Entry>, ys: seq<Entry>)
    ensures Seen(xs + ys) == Seen(xs) + Seen(ys)
  {
    if xs == [] {
      assert xs + ys == ys;
    } else {
      assert (xs + ys)[1..] == xs[1..] + ys;
      SeenAppend(xs[1..], ys);
    }
  }

  lemma {:induction false} FilesAppend(o: Options, xs: seq<Entry>, ys: seq<Entry>, dir: Path)
    ensures Files(o, xs + ys, dir) == Files(o, xs, dir) + Files(o, ys, dir)
  {
    if xs == [] {
      assert xs + ys == ys;
    } else {
      assert (xs + ys)[1..] == xs[1..] + ys;
      FilesAppend(o, xs[1..], ys, dir);
    }
  }

  lemma OneEntry(o: Options, e: Entry, dir: Path)
    ensures Seen([e]) == SeenIn(e) && Files(o, [e], dir) == FilesOf(o, e, dir)
  {
    assert [e][1..] == [];
  }

  lemma {:induction false} InsertedEntry(o: Options, xs: seq<Entry>, x: Entry, key: Entry -> string, dir: Path)
    ensures Seen(Insert(xs, x, key)) == Seen(xs) + SeenIn(x)
    ensures multiset(Files(o, Insert(xs, x, key), dir)) == multiset(Files(o, xs, dir)) + multiset(FilesOf(o, x, dir))
  {
    OneEntry(o, x, dir);
    if xs == [] || AtMost(key(xs[|xs| - 1]), key(x)) {
      SeenAppend(xs, [x]);
      FilesAppend(o, xs, [x], dir);
    } else {
      var init, last := xs[..|xs| - 1], xs[|xs| - 1];
      assert xs == init + [last];
      InsertedEntry(o, init, x, key, dir);
      SeenAppend(init, [last]);
      FilesAppend(o, init, [last], dir);
      SeenAppend(Insert(init, x, key), [last]);
      FilesAppend(o, Insert(init, x, key), [last], dir);
    }
  }

  lemma {:induction false} SortingKeepsContents(o: Options, xs: seq<Entry>, key: Entry -> string, dir: Path, depth: nat)
    ensures Seen(SortedBy(xs, key)) == Seen(xs) && |SortedBy(xs, key)| == |xs|
    ensures multiset(Files(o, SortedBy(xs, key), dir)) == multiset(Files(o, xs, dir))
    ensures Clean(o, SortedBy(xs, key), dir, depth) <==> Clean(o, xs, dir, depth)
  {
    SortedByIsSorted(xs, key);
    assert |multiset(SortedBy(xs, key))| == |multiset(xs)|;
    assert forall e :: e in xs <==> e in multiset(xs);
    assert forall e :: e in SortedBy(xs, key) <==> e in multiset(SortedBy(xs, key));
    SortingKeepsSums(o, xs, key, dir);
  }

  lemma {:induction false} SortingKeepsSums(o: Options, xs: seq<Entry>, key: Entry -> string, dir: Path)
    ensures Seen(SortedBy(xs, key)) == Seen(xs)
    ensures multiset(Files(o, SortedBy(xs, key), dir)) == multiset(Files(o, xs, dir))
  {
    if xs != [] {
      var init, last := xs[..|xs| - 1], xs[|xs| - 1];
      assert xs == init + [last];
      SortingKeepsSums(o, init, key, dir);
      InsertedEntry(o, SortedBy(init, key), last, key, dir);
      OneEntry(o, last, dir);
      SeenAppend(init, [last]);
      FilesAppend(o, init, [last], dir);
    }
  }

  // ----- the traversal ----------------------------------------------------------------------------------------------

  /** A directory waiting on the stack. */
  datatype Pending = Pending(dir: Path, readable: bool, listing: seq<Entry>, depth: nat)

  predicate StackClean(o: Options, stack: seq<Pending>) {
    forall p :: p in stack ==> p.readable && Clean(o, p.listing, p.dir, p.depth)
  }

  function StackSeen(stack: seq<Pending>): nat {
    if stack == [] then 0 else StackSeen(stack[..|stack| - 1]) + Seen(stack[|stack| - 1].listing)
  }

  function StackFiles(o: Options, stack: seq<Pending>): seq<Path> {
    if stack == [] then []
    else StackFiles(o, stack[..|stack| - 1]) + Files(o, stack[|stack| - 1].listing, stack[|stack| - 1].dir)
  }

  /** What the entries of one directory push, in order. */
  function PendingFor(e: Entry, dir: Path, depth: nat): seq<Pending> {
    if Entered(e) then [Pending(dir + [e.name], e.readable, if e.readable then e.listing else [], depth + 1)] else []
  }

  lemma Pushed(o: Options, stack: seq<Pending>, p: Pending)
    ensures StackSeen(stack + [p]) == StackSeen(stack) + Seen(p.listing)
    ensures StackFiles(o, stack + [p]) == StackFiles(o, stack) + Files(o, p.listing, p.dir)
    ensures StackClean(o, stack + [p]) <==> StackClean(o, stack) && p.readable && Clean(o, p.listing, p.dir, p.depth)
  {
    assert (stack + [p])[..|stack|] == stack;
    assert p in stack + [p];
    assert forall q :: q in stack ==> q in stack + [p];
  }

  /** Everything still to be found: what waits on the stack and the rest of the current listing. */
  datatype Progress = Progress(stack: seq<Pending>, found: seq<Path>)

  predicate Keeps(o: Options, before: Progress, entries: seq<Entry>, dir: Path, depth: nat, now: Progress, rest: seq<Entry>) {
    && (StackClean(o, before.stack) && Clean(o, entries, dir, depth)
        <==> StackClean(o, now.stack) && Clean(o, rest, dir, depth))
    && StackSeen(before.stack) + Seen(entries) - |entries| == StackSeen(now.stack) + Seen(rest) - |rest|
    && |before.stack| + StackSeen(before.stack) + Seen(entries) >= |now.stack| + StackSeen(now.stack) + Seen(rest)
    && multiset(before.found) + multiset(StackFiles(o, before.stack)) + multiset(Files(o, entries, dir))
       == multiset(now.found) + multiset(StackFiles(o, now.stack)) + multiset(Files(o, rest, dir))
  }

  /** What one entry of a directory leads to; none for a refusal. */
  function EntryDone(o: Options, e: Entry, dir: Path, depth: nat, p: Progress): Option<Progress> {
    match e
    case Unverifiable(_) => None
    case Link(name) => if Selected(o, dir + [name], name) then None else Some(p)
    case Special(_) => Some(p)
    case Directory(name, _, _) =>
      if Ignored(name) then Some(p)
      else if depth >= o.maxDepth then None
      else Some(p.(stack := p.stack + PendingFor(e, dir, depth)))
    case File(name) =>
      if !Selected(o, dir + [name], name) then Some(p)
      else if !IsJson(name) then None
      else Some(p.(found := p.found + [dir + [name]]))
  }

  lemma FirstClean(o: Options, e: Entry, rest: seq<Entry>, dir: Path, depth: nat)
    ensures Clean(o, [e] + rest, dir, depth) <==> CleanEntry(o, e, dir, depth) && Clean(o, rest, dir, depth)
    ensures Seen([e] + rest) == SeenIn(e) + Seen(rest)
    ensures Files(o, [e] + rest, dir) == FilesOf(o, e, dir) + Files(o, rest, dir)
  {
    assert ([e] + rest)[1..] == rest;
    assert e in [e] + rest;
    assert forall x :: x in rest ==> x in [e] + rest;
  }

  lemma MoveFiles(found: seq<Path>, stacked: seq<Path>, here: seq<Path>, rest: seq<Path>)
    ensures multiset(found) + multiset(stacked) + multiset(here + rest)
            == multiset(found) + multiset(stacked + here) + multiset(rest)
  {
  }

  lemma PendingIsEntry(o: Options, e: Entry, dir: Path, depth: nat, q: Pending)
    requires Entered(e) && depth < o.maxDepth && PendingFor(e, dir, depth) == [q]
    ensures SeenIn(e) == 1 + Seen(q.listing) && FilesOf(o, e, dir) == Files(o, q.listing, q.dir)
    ensures CleanEntry(o, e, dir, depth) <==> q.readable && Clean(o, q.listing, q.dir, q.depth)
  {
  }

  lemma DirectoryKeeps(o: Options, e: Entry, rest: seq<Entry>, dir: Path, depth: nat, p: Progress)
    requires Entered(e) && depth < o.maxDepth
    ensures Keeps(o, p, [e] + rest, dir, depth, p.(stack := p.stack + PendingFor(e, dir, depth)), rest)
  {
    var q := PendingFor(e, dir, depth)[0];
    FirstClean(o, e, rest, dir, depth);
    PendingIsEntry(o, e, dir, depth, q);
    Pushed(o, p.stack, q);
    MoveFiles(p.found, StackFiles(o, p.stack), FilesOf(o, e, dir), Files(o, rest, dir));
  }

  lemma OtherKeeps(o: Options, e: Entry, rest: seq<Entry>, dir: Path, depth: nat, p: Progress, p': Progress)
    requires EntryDone(o, e, dir, depth, p) == Some(p') && !Entered(e)
    ensures Keeps(o, p, [e] + rest, dir, depth, p', rest)
  {
    FirstClean(o, e, rest, dir, depth);
    assert CleanEntry(o, e, dir, depth) && SeenIn(e) == 1;
    assert p'.stack == p.stack && p'.found == p.found + FilesOf(o, e, dir);
  }

  lemma EntryKeeps(o: Options, e: Entry, rest: seq<Entry>, dir: Path, depth: nat, p: Progress, p': Progress)
    requires EntryDone(o, e, dir, depth, p) == Some(p')
    ensures Keeps(o, p, [e] + rest, dir, depth, p', rest)
  {
    if Entered(e) {
      DirectoryKeeps(o, e, rest, dir, depth, p);
    } else {
      OtherKeeps(o, e, rest, dir, depth, p, p');
    }
  }

  lemma EntryRefused(o: Options, e: Entry, dir: Path, depth: nat, p: Progress)
    requires EntryDone(o, e, dir, depth, p).None?
    ensures !CleanEntry(o, e, dir, depth)
  {
  }

  method VisitEntry(o: Options, e: Entry, dir: Path, depth: nat, p: Progress) returns (r: Option<Progress>)
    ensures r == EntryDone(o, e, dir, depth, p)
  {
    if e.Unverifiable? {
      return None;
    }
    if e.Link? {
      return if Selected(o, dir + [e.name], e.name) then None else Some(p);
    }
    if e.Directory? {
      if Ignored(e.name) {
        return Some(p);
      }
      if depth >= o.maxDepth {
        return None;
      }
      return Some(p.(stack := p.stack + PendingFor(e, dir, depth)));
    }
    if e.File? && Selected(o, dir + [e.name], e.name) {
      if !IsJson(e.name) {
        return None;
      }
      return Some(p.(found := p.found + [dir + [e.name]]));
    }
    r := Some(p);
  }

  lemma KeepsTransitive(o: Options, p0: Progress, entries: seq<Entry>, dir: Path, depth: nat, p1: Progress, e: Entry, rest: seq<Entry>, p2: Progress)
    requires Keeps(o, p0, entries, dir, depth, p1, [e] + rest) && Keeps(o, p1, [e] + rest, dir, depth, p2, rest)
    ensures Keeps(o, p0, entries, dir, depth, p2, rest)
  {
  }

  /** More files than the budget, whatever else is found. */
  lemma TooMany(o: Options, p0: Progress, entries: seq<Entry>, dir: Path, depth: nat, p: Progress, rest: seq<Entry>)
    requires Keeps(o, p0, entries, dir, depth, p, rest) && |p.found| > o.maxFiles
    ensures |p0.found| + |StackFiles(o, p0.stack)| + |Files(o, entries, dir)| > o.maxFiles
  {
    assert |multiset(p0.found) + multiset(StackFiles(o, p0.stack)) + multiset(Files(o, entries, dir))|
           == |p0.found| + |StackFiles(o, p0.stack)| + |Files(o, entries, dir)|;
    assert |multiset(p.found) + multiset(StackFiles(o, p.stack)) + multiset(Files(o, rest, dir))|
           == |p.found| + |StackFiles(o, p.stack)| + |Files(o, rest, dir)|;
  }

  /** The loop over the sorted entries of one directory. */
  method VisitDirectory(o: Options, entries: seq<Entry>, dir: Path, depth: nat, p0: Progress) returns (r: Option<Progress>)
    requires |p0.found| <= o.maxFiles
    ensures r.Some? ==> |r.value.found| <= o.maxFiles && Keeps(o, p0, entries, dir, depth, r.value, [])
    ensures r.None? ==>
      !Clean(o, entries, dir, depth) || !StackClean(o, p0.stack)
      || |p0.found| + |StackFiles(o, p0.stack)| + |Files(o, entries, dir)| > o.maxFiles
  {
    var p := p0;
    assert entries[0..] == entries;
    for i := 0 to |entries|
      invariant |p.found| <= o.maxFiles
      invariant Keeps(o, p0, entries, dir, depth, p, entries[i..])
    {
      var e, rest := entries[i], entries[i + 1..];
      assert entries[i..] == [e] + rest;
      var next := VisitEntry(o, e, dir, depth, p);
      if next.None? {
        EntryRefused(o, e, dir, depth, p);
        assert e in entries[i..];
        return None;
      }
      EntryKeeps(o, e, rest, dir, depth, p, next.value);
      KeepsTransitive(o, p0, entries, dir, depth, p, e, rest, next.value);
      p := next.value;
      if |p.found| > o.maxFiles {
        TooMany(o, p0, entries, dir, depth, p, rest);
        return None;
      }
    }
    assert entries[|entries|..] == [];
    r := Some(p);
  }

  // ----- the whole discovery ----------------------------------------------------------------------------------------

  /** A tree the traversal accepts: no refusal anywhere, and within the entry and file budgets. */
  predicate Discoverable(o: Options, readable: bool, root: seq<Entry>) {
    readable && Clean(o, root, [], 0) && Seen(root) <= MAX_DIRECTORY_ENTRIES && |Files(o, root, [])| <= o.maxFiles
  }

  /** The invariant of the stack loop: what is done and what waits make up the whole tree. */
  predicate Accounted(o: Options, readable: bool, root: seq<Entry>, p: Progress, count: nat) {
    && (readable && Clean(o, root, [], 0) <==> StackClean(o, p.stack))
    && (readable ==> Seen(root) == count + StackSeen(p.stack))
    && multiset(p.found) + multiset(StackFiles(o, p.stack)) == multiset(if readable then Files(o, root, []) else [])
  }

  lemma StartAccounts(o: Options, readable: bool, root: seq<Entry>, p: Progress)
    requires p == Progress([Pending([], readable, if readable then root else [], 0)], [])
    ensures Accounted(o, readable, root, p, 0)
  {
    Pushed(o, [], p.stack[0]);
    assert [] + [p.stack[0]] == p.stack;
  }

  lemma PopAccounts(o: Options, stack: seq<Pending>)
    requires stack != []
    ensures var init, top := stack[..|stack| - 1], stack[|stack| - 1];
            && StackSeen(stack) == StackSeen(init) + Seen(top.listing)
            && StackFiles(o, stack) == StackFiles(o, init) + Files(o, top.listing, top.dir)
            && (StackClean(o, stack) <==> StackClean(o, init) && top.readable && Clean(o, top.listing, top.dir, top.depth))
  {
    assert stack == stack[..|stack| - 1] + [stack[|stack| - 1]];
    Pushed(o, stack[..|stack| - 1], stack[|stack| - 1]);
  }

  lemma SeenAtLeast(entries: seq<Entry>)
    ensures Seen(entries) >= |entries|
  {
    if entries != [] {
      SeenAtLeast(entries[1..]);
    }
  }

  /** A directory whose entries are all visited. */
  lemma NothingLeft(o: Options, p0: Progress, entries: seq<Entry>, dir: Path, depth: nat, p: Progress)
    requires Keeps(o, p0, entries, dir, depth, p, [])
    ensures StackClean(o, p0.stack) && Clean(o, entries, dir, depth) <==> StackClean(o, p.stack)
    ensures StackSeen(p0.stack) + Seen(entries) == StackSeen(p.stack) + |entries|
    ensures |p0.stack| + StackSeen(p0.stack) + Seen(entries) >= |p.stack| + StackSeen(p.stack)
    ensures multiset(p0.found) + multiset(StackFiles(o, p0.stack)) + multiset(Files(o, entries, dir))
            == multiset(p.found) + multiset(StackFiles(o, p.stack))
  {
    assert Files(o, [], dir) == [];
  }

  /** One directory off the stack, its sorted entries visited. */
  lemma VisitAccounts(o: Options, readable: bool, root: seq<Entry>, p: Progress, count: nat, top: Pending, init: seq<Pending>, p': Progress)
    requires p.stack != [] && init == p.stack[..|p.stack| - 1] && top == p.stack[|p.stack| - 1] && top.readable
    requires Accounted(o, readable, root, p, count)
    requires Keeps(o, Progress(init, p.found), SortedBy(top.listing, FoldedName()), top.dir, top.depth, p', [])
    ensures Accounted(o, readable, root, p', count + |top.listing|)
    ensures |p'.stack| + StackSeen(p'.stack) < |p.stack| + StackSeen(p.stack)
  {
    PopAccounts(o, p.stack);
    SortingKeepsContents(o, top.listing, FoldedName(), top.dir, top.depth);
    NothingLeft(o, Progress(init, p.found), SortedBy(top.listing, FoldedName()), top.dir, top.depth, p');
    MultisetsRegroup(multiset(p.found), multiset(StackFiles(o, init)), Files(o, top.listing, top.dir), StackFiles(o, p.stack), StackFiles(o, init));
  }

  lemma MultisetsRegroup(a: multiset<Path>, b: multiset<Path>, files: seq<Path>, all: seq<Path>, init: seq<Path>)
    requires all == init + files && b == multiset(init)
    ensures a + multiset(all) == a + b + multiset(files)
  {
  }

  /** A refusal while a directory is visited: the tree is not discoverable. */
  lemma RefusalAccounts(o: Options, readable: bool, root: seq<Entry>, p: Progress, count: nat, entries: seq<Entry>)
    requires p.stack != [] && Accounted(o, readable, root, p, count)
    requires var init, top := p.stack[..|p.stack| - 1], p.stack[|p.stack| - 1];
             && entries == SortedBy(top.listing, FoldedName())
             && (!Clean(o, entries, top.dir, top.depth) || !StackClean(o, init)
                 || |p.found| + |StackFiles(o, init)| + |Files(o, entries, top.dir)| > o.maxFiles)
    ensures !Discoverable(o, readable, root)
  {
    var init, top := p.stack[..|p.stack| - 1], p.stack[|p.stack| - 1];
    PopAccounts(o, p.stack);
    SortingKeepsContents(o, top.listing, FoldedName(), top.dir, top.depth);
    assert |multiset(Files(o, entries, top.dir))| == |multiset(Files(o, top.listing, top.dir))|;
    SizesAgree(o, readable, root, p, count);
  }

  lemma SizesAgree(o: Options, readable: bool, root: seq<Entry>, p: Progress, count: nat)
    requires Accounted(o, readable, root, p, count)
    ensures |p.found| + |StackFiles(o, p.stack)| == if readable then |Files(o, root, [])| else 0
  {
    assert |multiset(p.found) + multiset(StackFiles(o, p.stack))| == |p.found| + |StackFiles(o, p.stack)|;
  }

  /**
   * The traversal: it succeeds exactly on discoverable trees, and then returns every matching regular
   * file reachable through entered directories exactly once, ordered by folded relative path.
   */
  method Discover(o: Options, readable: bool, root: seq<Entry>) returns (r: Option<seq<Path>>)
    ensures r.Some? <==> Discoverable(o, readable, root)
    ensures r.Some? ==> multiset(r.value) == multiset(Files(o, root, [])) && Ordered(r.value, FoldedPath())
  {
    var p := Progress([Pending([], readable, if readable then root else [], 0)], []);
    var count: nat := 0;
    StartAccounts(o, readable, root, p);
    while p.stack != []
      invariant |p.found| <= o.maxFiles && count <= MAX_DIRECTORY_ENTRIES
      invariant Accounted(o, readable, root, p, count)
      decreases |p.stack| + StackSeen(p.stack)
    {
      var init, top := p.stack[..|p.stack| - 1], p.stack[|p.stack| - 1];
      if !top.readable {
        PopAccounts(o, p.stack);
        return None;
      }
      if count + |top.listing| > MAX_DIRECTORY_ENTRIES {
        PopAccounts(o, p.stack);
        SeenAtLeast(top.listing);
        return None;
      }
      var entries := SortedBy(top.listing, FoldedName());
      var visited := VisitDirectory(o, entries, top.dir, top.depth, Progress(init, p.found));
      if visited.None? {
        RefusalAccounts(o, readable, root, p, count, entries);
        return None;
      }
      VisitAccounts(o, readable, root, p, count, top, init, visited.value);
      p, count := visited.value, count + |top.listing|;
    }
    SortedByIsSorted(p.found, FoldedPath());
    SizesAgree(o, readable, root, p, count);
    r := Some(SortedBy(p.found, FoldedPath()));
  }
}
