/**
 * Policy inheritance (policy.py): recursive includes merged in place, with provenance.
 *
 * `PolicyDocument` is the mutable result that `_merge` and `_merge_resolved` update. A file system
 * is a map from resolved paths to validated documents; reading costs bytes, and an unreadable or
 * invalid file, or a reference that is remote, absolute or outside the root, is refused.
 */
module Inheritance {
  import opened Basics
  import opened Json
  import opened Models

  const MAX_POLICY_BYTES := 1024 * 1024
  const MAX_POLICY_TOTAL_BYTES := 4 * 1024 * 1024
  const MAX_POLICY_FILES := 16
  const MAX_POLICY_DEPTH := 8

  type Path = string

  /** The labels "built-in-default", "profile:<name>" and "policy:<relative path>". */
  datatype Source = BuiltInDefault | ProfileSource(name: string) | FileSource(path: Path)

  /** What a policy defines by name; provenance writes "<section>.<name>" and "budgets.<id>". */
  datatype Key = RuleKey(name: RuleName) | BudgetKey(id: string)

  datatype Value = PatternList(patterns: seq<string>) | BudgetConfig(budget: Json)

  type Table = map<Key, Value>

  type Labels = map<Key, Source>

  /**
   * What one profile or one file says for itself: an optional default, the rule sections it
   * mentions (also empty ones), and its named rule lists and budgets.
   */
  datatype Overlay = Overlay(default: Option<Decision>, sections: set<string>, table: Table)

  datatype Layer = Layer(source: Source, overlay: Overlay)

  /** The content of a resolved policy. */
  datatype Resolved = Resolved(
    default: Decision, sections: set<string>, table: Table,
    profiles: seq<string>, sources: seq<Source>, defaultSource: Source,
    ruleSources: Labels, budgetSources: Labels)

  const EMPTY := Resolved(Warn, {}, map[], [], [], BuiltInDefault, map[], map[])

  // ----- merging as a function ------------------------------------------------------------------

  function AllFrom(keys: set<Key>, source: Source): Labels {
    map k | k in keys :: source
  }

  function BudgetPart(labels: Labels): Labels {
    map k | k in labels && k.BudgetKey? :: labels[k]
  }

  function AppendAllNew<T(==)>(xs: seq<T>, ys: seq<T>): seq<T> {
    if ys == [] then xs else AppendNew(AppendAllNew(xs, ys[..|ys| - 1]), ys[|ys| - 1])
  }

  /** `_merge`: lay one overlay over the target. */
  function Merged(t: Resolved, o: Overlay, source: Source): Resolved {
    var labels := AllFrom(o.table.Keys, source);
    Resolved(
      if o.default.Some? then o.default.value else t.default,
      t.sections + o.sections,
      t.table + o.table,
      t.profiles,
      AppendNew(t.sources, source),
      if o.default.Some? then source else t.defaultSource,
      t.ruleSources + labels,
      t.budgetSources + BudgetPart(labels))
  }

  /** `_merge_resolved`: lay a resolved policy over the target, keeping where its values came from. */
  function MergedResolved(t: Resolved, r: Resolved): Resolved {
    Resolved(
      if r.defaultSource != BuiltInDefault then r.default else t.default,
      t.sections + r.sections,
      t.table + r.table,
      AppendAllNew(t.profiles, r.profiles),
      AppendAllNew(t.sources, r.sources),
      if r.defaultSource != BuiltInDefault then r.defaultSource else t.defaultSource,
      t.ruleSources + r.ruleSources,
      t.budgetSources + r.budgetSources)
  }

  /** Every defined key is labelled, budgets in both tables alike. */
  predicate Consistent(r: Resolved) {
    r.ruleSources.Keys == r.table.Keys && r.budgetSources == BudgetPart(r.ruleSources)
  }

  lemma OneMore<V>(base: map<Key, V>, more: map<Key, V>, todo: set<Key>, k: Key)
    requires k in more && k in todo
    ensures (base + (more - todo))[k := more[k]] == base + (more - (todo - {k}))
  {
  }

  lemma OneMoreBudget(base: Labels, more: Labels, todo: set<Key>, k: Key)
    requires k in more && k in todo
    ensures (if k.BudgetKey? then (base + BudgetPart(more - todo))[k := more[k]] else base + BudgetPart(more - todo))
            == base + BudgetPart(more - (todo - {k}))
  {
  }

  // ----- the mutable document ---------------------------------------------------------------------

  class PolicyDocument {
    var default: Decision
    var sections: set<string>
    var table: Table
    var profiles: seq<string>
    var sources: seq<Source>
    var defaultSource: Source
    var ruleSources: Labels
    var budgetSources: Labels

    function Content(): Resolved
      reads this
    {
      Resolved(default, sections, table, profiles, sources, defaultSource, ruleSources, budgetSources)
    }

    constructor Empty()
      ensures Content() == EMPTY
    {
      default := Warn;
      sections := {};
      table := map[];
      profiles := [];
      sources := [];
      defaultSource := BuiltInDefault;
      ruleSources := map[];
      budgetSources := map[];
    }

    method Merge(overlay: Overlay, source: Source)
      modifies this
      ensures Content() == Merged(old(Content()), overlay, source)
    {
      if overlay.default.Some? {
        default := overlay.default.value;
        defaultSource := source;
      }
      sections := sections + overlay.sections;
      Absorb(overlay.table, AllFrom(overlay.table.Keys, source));
      if source !in sources {
        sources := sources + [source];
      }
    }

    method MergeResolved(resolved: PolicyDocument)
      requires resolved != this && Consistent(resolved.Content())
      modifies this
      ensures Content() == MergedResolved(old(Content()), old(resolved.Content()))
    {
      if resolved.defaultSource != BuiltInDefault {
        default := resolved.default;
        defaultSource := resolved.defaultSource;
      }
      sections := sections + resolved.sections;
      var labels := map k | k in resolved.table ::
        if k.BudgetKey? then resolved.budgetSources[k] else resolved.ruleSources[k];
      assert labels == resolved.ruleSources;
      Absorb(resolved.table, labels);
      AppendProfiles(resolved.profiles);
      AppendSources(resolved.sources);
    }

    /** Every named list or budget replaces the inherited one and is labelled with its source. */
    method Absorb(more: Table, labels: Labels)
      requires labels.Keys == more.Keys
      modifies `table, `ruleSources, `budgetSources
      ensures table == old(table) + more
      ensures ruleSources == old(ruleSources) + labels
      ensures budgetSources == old(budgetSources) + BudgetPart(labels)
    {
      var todo := more.Keys;
      while todo != {}
        invariant todo <= more.Keys
        invariant table == old(table) + (more - todo)
        invariant ruleSources == old(ruleSources) + (labels - todo)
        invariant budgetSources == old(budgetSources) + BudgetPart(labels - todo)
        decreases todo
      {
        var k :| k in todo;
        OneMore(old(table), more, todo, k);
        OneMore(old(ruleSources), labels, todo, k);
        OneMoreBudget(old(budgetSources), labels, todo, k);
        table := table[k := more[k]];
        ruleSources := ruleSources[k := labels[k]];
        if k.BudgetKey? {
          budgetSources := budgetSources[k := labels[k]];
        }
        todo := todo - {k};
      }
      assert more - todo == more && labels - todo == labels;
    }

    method AppendProfiles(more: seq<string>)
      modifies `profiles
      ensures profiles == AppendAllNew(old(profiles), more)
    {
      for i := 0 to |more|
        invariant profiles == AppendAllNew(old(profiles), more[..i])
      {
        assert more[..i + 1][..i] == more[..i];
        if more[i] !in profiles {
          profiles := profiles + [more[i]];
        }
      }
      assert more[..|more|] == more;
    }

    method AppendSources(more: seq<Source>)
      modifies `sources
      ensures sources == AppendAllNew(old(sources), more)
    {
      for i := 0 to |more|
        invariant sources == AppendAllNew(old(sources), more[..i])
      {
        assert more[..i + 1][..i] == more[..i];
        if more[i] !in sources {
          sources := sources + [more[i]];
        }
      }
      assert more[..|more|] == more;
    }
  }

  // ----- layers -----------------------------------------------------------------------------------

  function ProfilesOf(source: Source): seq<string> {
    if source.ProfileSource? then [source.name] else []
  }

  /** Overlays applied in order to the empty policy; a profile is listed when its layer is applied. */
  function Fold(layers: seq<Layer>): Resolved {
    if layers == [] then EMPTY
    else
      var last := layers[|layers| - 1];
      var before := Fold(layers[..|layers| - 1]);
      Merged(before.(profiles := AppendAllNew(before.profiles, ProfilesOf(last.source))), last.overlay, last.source)
  }

  predicate Labelled(layers: seq<Layer>) {
    forall l :: l in layers ==> l.source != BuiltInDefault
  }

  lemma {:induction false} FoldConsistent(layers: seq<Layer>)
    ensures Consistent(Fold(layers))
  {
    if layers != [] {
      var init, l := layers[..|layers| - 1], layers[|layers| - 1];
      FoldConsistent(init);
      MergedConsistent(Listed(Fold(init), l.source), l);
    }
  }

  lemma MergedConsistent(r: Resolved, l: Layer)
    requires Consistent(r)
    ensures Consistent(Merged(r, l.overlay, l.source))
  {
    BudgetPartPlus(r.ruleSources, AllFrom(l.overlay.table.Keys, l.source));
  }

  lemma BudgetPartPlus(a: Labels, b: Labels)
    ensures BudgetPart(a + b) == BudgetPart(a) + BudgetPart(b)
  {
  }

  lemma {:induction false} AppendAllNewHas<T>(xs: seq<T>, ys: seq<T>, t: T)
    ensures t in AppendAllNew(xs, ys) <==> t in xs || t in ys
  {
    if ys != [] {
      AppendAllNewHas(xs, ys[..|ys| - 1], t);
      assert ys == ys[..|ys| - 1] + [ys[|ys| - 1]];
    }
  }

  lemma AppendAllNewStep<T>(xs: seq<T>, ys: seq<T>, t: T)
    ensures AppendAllNew(xs, AppendNew(ys, t)) == AppendNew(AppendAllNew(xs, ys), t)
  {
    AppendAllNewHas(xs, ys, t);
    if t !in ys {
      assert (ys + [t])[..|ys|] == ys;
    }
  }

  lemma AppendAllNewOfProfiles(xs: seq<string>, ys: seq<string>, source: Source)
    ensures AppendAllNew(xs, AppendAllNew(ys, ProfilesOf(source)))
            == AppendAllNew(AppendAllNew(xs, ys), ProfilesOf(source))
  {
    if source.ProfileSource? {
      assert [source.name][..0] == [];
      AppendAllNewStep(xs, ys, source.name);
    }
  }

  lemma PlusAssociative<V>(a: map<Key, V>, b: map<Key, V>, c: map<Key, V>)
    ensures a + (b + c) == (a + b) + c
  {
  }

  lemma MergedResolvedStep(t: Resolved, r: Resolved, l: Layer)
    requires l.source != BuiltInDefault
    ensures MergedResolved(t, Merged(r, l.overlay, l.source)) == Merged(MergedResolved(t, r), l.overlay, l.source)
  {
    AppendAllNewStep(t.sources, r.sources, l.source);
    var labels := AllFrom(l.overlay.table.Keys, l.source);
    PlusAssociative(t.table, r.table, l.overlay.table);
    PlusAssociative(t.ruleSources, r.ruleSources, labels);
    PlusAssociative(t.budgetSources, r.budgetSources, BudgetPart(labels));
    assert t.sections + (r.sections + l.overlay.sections) == (t.sections + r.sections) + l.overlay.sections;
  }

  lemma {:induction false} MergeLayers(a: seq<Layer>, b: seq<Layer>) returns (fa: Resolved, fb: Resolved, both: Resolved)
    requires Labelled(b)
    ensures fa == Fold(a) && fb == Fold(b) && both == Fold(a + b) && MergedResolved(fa, fb) == both
  {
    if b == [] {
      assert a + b == a;
      fa, fb, both := Fold(a), EMPTY, Fold(a);
      MergedWithNothing(fa);
    } else {
      var init, l := b[..|b| - 1], b[|b| - 1];
      assert b == init + [l] && a + b == (a + init) + [l];
      fa, fb, both := MergeLayers(a, init);
      FoldLast(a + init, l);
      FoldLast(init, l);
      MergeOneMoreLayer(fa, fb, both, l);
      fb, both := Merged(Listed(fb, l.source), l.overlay, l.source), Merged(Listed(both, l.source), l.overlay, l.source);
    }
  }

  /** Merging two resolved policies is resolving the layers of the first, then those of the second. */
  lemma MergeOfFolds(a: seq<Layer>, b: seq<Layer>)
    requires Labelled(b)
    ensures MergedResolved(Fold(a), Fold(b)) == Fold(a + b)
  {
    var fa, fb, both := MergeLayers(a, b);
  }

  lemma MergeOneMoreLayer(a: Resolved, b: Resolved, both: Resolved, l: Layer)
    requires l.source != BuiltInDefault && MergedResolved(a, b) == both
    ensures MergedResolved(a, Merged(Listed(b, l.source), l.overlay, l.source))
            == Merged(Listed(both, l.source), l.overlay, l.source)
  {
    MergedResolvedStep(a, Listed(b, l.source), l);
    AppendAllNewOfProfiles(a.profiles, b.profiles, l.source);
  }

  function Listed(r: Resolved, source: Source): Resolved {
    r.(profiles := AppendAllNew(r.profiles, ProfilesOf(source)))
  }

  lemma FoldLast(layers: seq<Layer>, l: Layer)
    ensures Fold(layers + [l]) == Merged(Listed(Fold(layers), l.source), l.overlay, l.source)
  {
    assert (layers + [l])[..|layers|] == layers;
  }

  lemma MergedWithNothing(r: Resolved)
    ensures MergedResolved(r, EMPTY) == r
  {
    assert r.table + map[] == r.table;
    assert r.ruleSources + map[] == r.ruleSources;
    assert r.budgetSources + map[] == r.budgetSources;
  }

  // ----- the flat reading: the last layer that says something wins --------------------------------

  function LastDefining(layers: seq<Layer>, k: Key): Option<Layer> {
    if layers == [] then None
    else if k in layers[|layers| - 1].overlay.table then Some(layers[|layers| - 1])
    else LastDefining(layers[..|layers| - 1], k)
  }

  function LastDefault(layers: seq<Layer>): Option<Layer> {
    if layers == [] then None
    else if layers[|layers| - 1].overlay.default.Some? then Some(layers[|layers| - 1])
    else LastDefault(layers[..|layers| - 1])
  }

  lemma {:induction false} FoldIsLastWriter(layers: seq<Layer>, k: Key)
    ensures k in Fold(layers).table <==> LastDefining(layers, k).Some?
    ensures k in Fold(layers).ruleSources <==> LastDefining(layers, k).Some?
    ensures LastDefining(layers, k).Some? ==>
              var l := LastDefining(layers, k).value;
              l in layers && k in l.overlay.table
              && Fold(layers).table[k] == l.overlay.table[k] && Fold(layers).ruleSources[k] == l.source
  {
    if layers != [] {
      FoldIsLastWriter(layers[..|layers| - 1], k);
    }
  }

  lemma {:induction false} FoldDefaultIsLast(layers: seq<Layer>)
    ensures match LastDefault(layers)
            case None => Fold(layers).default == Warn && Fold(layers).defaultSource == BuiltInDefault
            case Some(l) => l in layers && l.overlay.default == Some(Fold(layers).default)
                            && Fold(layers).defaultSource == l.source
  {
    if layers != [] {
      FoldDefaultIsLast(layers[..|layers| - 1]);
    }
  }

  function SourcesOf(layers: seq<Layer>): seq<Source> {
    seq(|layers|, i requires 0 <= i < |layers| => layers[i].source)
  }

  /** The recorded sources are the layers' sources, each at its first occurrence. */
  lemma {:induction false} FoldSources(layers: seq<Layer>)
    ensures Fold(layers).sources == Dedup(SourcesOf(layers))
  {
    if layers != [] {
      FoldSources(layers[..|layers| - 1]);
      assert SourcesOf(layers)[..|layers| - 1] == SourcesOf(layers[..|layers| - 1]);
    }
  }

  lemma {:induction false} DedupHas<T>(xs: seq<T>, t: T)
    ensures t in Dedup(xs) <==> t in xs
  {
    if xs != [] {
      DedupHas(xs[..|xs| - 1], t);
      assert xs == xs[..|xs| - 1] + [xs[|xs| - 1]];
    }
  }

  /** `Dedup` keeps exactly the elements, once each, in the order in which they first occur. */
  lemma {:induction false} DedupIsFirstOccurrences<T>(xs: seq<T>)
    ensures NoRepeats(Dedup(xs))
    ensures forall t :: t in Dedup(xs) <==> t in xs
    ensures forall i, j :: 0 <= i < j < |Dedup(xs)| ==> FirstBefore(xs, Dedup(xs)[i], Dedup(xs)[j])
  {
    forall t ensures t in Dedup(xs) <==> t in xs {
      DedupHas(xs, t);
    }
    if xs != [] {
      var init, last := xs[..|xs| - 1], xs[|xs| - 1];
      DedupIsFirstOccurrences(init);
      assert xs == init + [last];
      forall i, j | 0 <= i < j < |Dedup(xs)| ensures FirstBefore(xs, Dedup(xs)[i], Dedup(xs)[j]) {
        DedupHas(init, Dedup(init)[i]);
        DedupHas(init, last);
        assert Dedup(init)[i] in Dedup(init);
        if j < |Dedup(init)| {
          assert FirstBefore(init, Dedup(init)[i], Dedup(init)[j]);
        } else {
          assert Dedup(init)[i] in init && last !in init;
          var n :| 0 <= n < |init| && init[n] == Dedup(init)[i];
          assert last !in init[..n + 1];
          assert FirstBefore(init, Dedup(init)[i], last);
        }
        FirstBeforeExtends(init, last, Dedup(xs)[i], Dedup(xs)[j]);
      }
    }
  }

  /** `a` occurs, and `b` does not occur up to there. */
  predicate FirstBefore<T(==)>(xs: seq<T>, a: T, b: T) {
    exists n :: 0 <= n < |xs| && xs[n] == a && b !in xs[..n + 1]
  }

  lemma FirstBeforeExtends<T>(xs: seq<T>, x: T, a: T, b: T)
    requires FirstBefore(xs, a, b)
    ensures FirstBefore(xs + [x], a, b)
  {
    var n :| 0 <= n < |xs| && xs[n] == a && b !in xs[..n + 1];
    assert (xs + [x])[n] == a && (xs + [x])[..n + 1] == xs[..n + 1];
  }

  // ----- files and include trees --------------------------------------------------------------------

  /** A parsed file; an include is its resolved path, or None where the reference is refused. */
  datatype Document = Document(size: nat, valid: bool, profile: Option<string>, includes: seq<Option<Path>>, overlay: Overlay)

  datatype World = World(files: map<Path, Document>, profiles: map<string, Overlay>)

  predicate Readable(w: World, path: Path) {
    && path in w.files
    && w.files[path].valid
    && w.files[path].size <= MAX_POLICY_BYTES
    && (w.files[path].profile.Some? ==> w.files[path].profile.value in w.profiles)
  }

  datatype Tree = Tree(path: Path, doc: Document, children: seq<Tree>)

  /** The tree of includes below a file, if it is no deeper than `levels`. */
  function Unfold(w: World, path: Path, levels: nat): Option<Tree>
    decreases levels
  {
    if levels == 0 || !Readable(w, path) then None
    else
      var refs := w.files[path].includes;
      if forall i :: 0 <= i < |refs| ==> refs[i].Some? && Unfold(w, refs[i].value, levels - 1).Some? then
        Some(Tree(path, w.files[path],
                  seq(|refs|, i requires 0 <= i < |refs| => Unfold(w, refs[i].value, levels - 1).value)))
      else None
  }

  function Reads(t: Tree): nat
    decreases t, 0
  {
    1 + ReadsAll(t.children)
  }

  function ReadsAll(ts: seq<Tree>): nat
    decreases ts, 1
  {
    if ts == [] then 0 else ReadsAll(ts[..|ts| - 1]) + Reads(ts[|ts| - 1])
  }

  function Bytes(t: Tree): nat
    decreases t, 0
  {
    t.doc.size + BytesAll(t.children)
  }

  function BytesAll(ts: seq<Tree>): nat
    decreases ts, 1
  {
    if ts == [] then 0 else BytesAll(ts[..|ts| - 1]) + Bytes(ts[|ts| - 1])
  }

  function ProfileLayers(w: World, doc: Document): seq<Layer>
    requires doc.profile.Some? ==> doc.profile.value in w.profiles
  {
    if doc.profile.Some? then [Layer(ProfileSource(doc.profile.value), w.profiles[doc.profile.value])] else []
  }

  /** Every document of the tree is the file of its path, with a known profile. */
  predicate Grounded(w: World, t: Tree)
    decreases t
  {
    Readable(w, t.path) && t.doc == w.files[t.path] && forall c :: c in t.children ==> Grounded(w, c)
  }

  /** Post-order flattening: profile, includes left to right, own fields. */
  function Flatten(w: World, t: Tree): seq<Layer>
    requires Grounded(w, t)
    decreases t, 0
  {
    ProfileLayers(w, t.doc) + FlattenAll(w, t.children) + [Layer(FileSource(t.path), t.doc.overlay)]
  }

  function FlattenAll(w: World, ts: seq<Tree>): seq<Layer>
    requires forall t :: t in ts ==> Grounded(w, t)
    decreases ts, 1
  {
    if ts == [] then [] else FlattenAll(w, ts[..|ts| - 1]) + Flatten(w, ts[|ts| - 1])
  }

  lemma {:induction false} UnfoldGrounded(w: World, path: Path, levels: nat)
    requires Unfold(w, path, levels).Some?
    ensures Grounded(w, Unfold(w, path, levels).value)
    decreases levels
  {
    var t := Unfold(w, path, levels).value;
    forall c | c in t.children ensures Grounded(w, c) {
      var i :| 0 <= i < |t.children| && t.children[i] == c;
      UnfoldGrounded(w, w.files[path].includes[i].value, levels - 1);
    }
  }

  /** No path of the tree repeats one of its ancestors or of `stack`. */
  predicate Avoids(t: Tree, stack: seq<Path>)
    decreases t
  {
    t.path !in stack && forall c :: c in t.children ==> Avoids(c, stack + [t.path])
  }

  lemma {:induction false} ReadsAllSplit(ts: seq<Tree>, i: nat)
    requires i < |ts|
    ensures ReadsAll(ts[..i]) + Reads(ts[i]) <= ReadsAll(ts)
    ensures BytesAll(ts[..i]) + Bytes(ts[i]) <= BytesAll(ts)
    decreases |ts|
  {
    if i < |ts| - 1 {
      ReadsAllSplit(ts[..|ts| - 1], i);
      assert ts[..|ts| - 1][..i] == ts[..i];
    }
  }

  // ----- resolving files ------------------------------------------------------------------------------

  datatype PolicyError = TooDeep | Cycle | Unreadable | Oversized | TooManyFiles | TooManyBytes | Invalid | BadReference

  class ReadState {
    var files: nat
    var bytes: nat

    constructor ()
      ensures files == 0 && bytes == 0
    {
      files, bytes := 0, 0;
    }
  }

  /** What it takes for a file to resolve below `stack` when `files` and `bytes` are already spent. */
  predicate Resolvable(w: World, path: Path, stack: seq<Path>, files: nat, bytes: nat)
    requires |stack| <= MAX_POLICY_DEPTH
  {
    var t := Unfold(w, path, MAX_POLICY_DEPTH - |stack|);
    t.Some? && Avoids(t.value, stack)
    && files + Reads(t.value) <= MAX_POLICY_FILES && bytes + Bytes(t.value) <= MAX_POLICY_TOTAL_BYTES
  }

  function ResolvedContent(w: World, path: Path, levels: nat): Resolved
    requires Unfold(w, path, levels).Some?
  {
    UnfoldGrounded(w, path, levels);
    Fold(Flatten(w, Unfold(w, path, levels).value))
  }

  method LoadProfile(w: World, name: string) returns (r: PolicyDocument)
    requires name in w.profiles
    ensures fresh(r)
    ensures r.Content() == Fold([Layer(ProfileSource(name), w.profiles[name])])
  {
    r := new PolicyDocument.Empty();
    r.profiles := r.profiles + [name];
    r.Merge(w.profiles[name], ProfileSource(name));
    var layer := Layer(ProfileSource(name), w.profiles[name]);
    FoldLast([], layer);
    assert [] + [layer] == [layer];
    assert [name][..0] == [];
    assert AppendAllNew<string>([], [name]) == [name];
  }

  method ReadMapping(w: World, path: Path, state: ReadState) returns (r: Result<Document, PolicyError>)
    modifies state
    ensures r.Ok? <==> Readable(w, path) && old(state.files) + 1 <= MAX_POLICY_FILES
                       && old(state.bytes) + w.files[path].size <= MAX_POLICY_TOTAL_BYTES
    ensures r.Ok? ==> r.value == w.files[path] && state.files == old(state.files) + 1
                      && state.bytes == old(state.bytes) + w.files[path].size
  {
    if path !in w.files {
      return Err(Unreadable);
    }
    var doc := w.files[path];
    if doc.size > MAX_POLICY_BYTES {
      return Err(Oversized);
    }
    state.files := state.files + 1;
    state.bytes := state.bytes + doc.size;
    if state.files > MAX_POLICY_FILES {
      return Err(TooManyFiles);
    }
    if state.bytes > MAX_POLICY_TOTAL_BYTES {
      return Err(TooManyBytes);
    }
    if !doc.valid || (doc.profile.Some? && doc.profile.value !in w.profiles) {
      return Err(Invalid);
    }
    return Ok(doc);
  }

  /** What a successful resolution hands back: the content, and what it spent. */
  ghost predicate Resolves(w: World, path: Path, stack: seq<Path>, content: Resolved, files: int, bytes: int) {
    && |stack| <= MAX_POLICY_DEPTH
    && Unfold(w, path, MAX_POLICY_DEPTH - |stack|).Some?
    && content == ResolvedContent(w, path, MAX_POLICY_DEPTH - |stack|)
    && files == Reads(Unfold(w, path, MAX_POLICY_DEPTH - |stack|).value)
    && bytes == Bytes(Unfold(w, path, MAX_POLICY_DEPTH - |stack|).value)
  }

  method ResolveFile(w: World, path: Path, state: ReadState, stack: seq<Path>)
    returns (r: Result<PolicyDocument, PolicyError>)
    requires |stack| <= MAX_POLICY_DEPTH
    modifies state
    ensures r.Ok? <==> Resolvable(w, path, stack, old(state.files), old(state.bytes))
    ensures r.Ok? ==> fresh(r.value)
    ensures r.Ok? ==> Resolves(w, path, stack, r.value.Content(),
                               state.files - old(state.files), state.bytes - old(state.bytes))
    decreases MAX_POLICY_DEPTH - |stack|, 2
  {
    if |stack| >= MAX_POLICY_DEPTH {
      return Err(TooDeep);
    }
    if path in stack {
      return Err(Cycle);
    }
    var read := ReadMapping(w, path, state);
    if read.Err? {
      return Err(read.error);
    }
    var doc := read.value;
    var result := new PolicyDocument.Empty();
    if doc.profile.Some? {
      var profile := LoadProfile(w, doc.profile.value);
      ProfileStep(w, doc);
      result.MergeResolved(profile);
    }
    var failure, done := MergeIncludes(w, path, state, stack, result);
    if failure.Some? {
      return Err(failure.value);
    }
    TreeComplete(w, path, stack, done);
    result.Merge(doc.overlay, FileSource(path));
    return Ok(result);
  }

  /** The file does not resolve; `files` and `bytes` are spent once it has been read. */
  ghost predicate Unresolvable(w: World, path: Path, stack: seq<Path>, files: nat, bytes: nat)
    requires |stack| < MAX_POLICY_DEPTH && Readable(w, path)
  {
    forall f: nat, b: nat | f + 1 == files && b + w.files[path].size == bytes :: !Resolvable(w, path, stack, f, b)
  }

  lemma BadReferenceIsFatal(w: World, path: Path, stack: seq<Path>, i: nat, files: nat, bytes: nat)
    requires |stack| < MAX_POLICY_DEPTH && Readable(w, path)
    requires i < |w.files[path].includes| && w.files[path].includes[i].None?
    ensures Unresolvable(w, path, stack, files, bytes)
  {
  }

  /** The loop over the `extends` list of one file. */
  method MergeIncludes(w: World, path: Path, state: ReadState, stack: seq<Path>, result: PolicyDocument)
    returns (failure: Option<PolicyError>, ghost done: seq<Tree>)
    requires |stack| < MAX_POLICY_DEPTH && Readable(w, path)
    requires state.files <= MAX_POLICY_FILES && state.bytes <= MAX_POLICY_TOTAL_BYTES
    requires result.Content() == Fold(ProfileLayers(w, w.files[path]))
    modifies state, result
    ensures failure.Some? ==> Unresolvable(w, path, stack, old(state.files), old(state.bytes))
    ensures failure.None? ==> Unfolded(w, w.files[path], stack + [path], done, |w.files[path].includes|)
    ensures failure.None? ==> state.files == old(state.files) + ReadsAll(done) <= MAX_POLICY_FILES
    ensures failure.None? ==> state.bytes == old(state.bytes) + BytesAll(done) <= MAX_POLICY_TOTAL_BYTES
    ensures failure.None? ==> result.Content() == Fold(ProfileLayers(w, w.files[path]) + FlattenAll(w, done))
    decreases MAX_POLICY_DEPTH - |stack|, 1
  {
    var doc := w.files[path];
    ghost var files, bytes := state.files, state.bytes;
    done := [];
    assert ProfileLayers(w, doc) + [] == ProfileLayers(w, doc);
    for i := 0 to |doc.includes|
      invariant Progress(w, doc, stack + [path], done, i, result.Content())
      invariant Spent(state.files, state.bytes, files, bytes, done)
    {
      if doc.includes[i].None? {
        BadReferenceIsFatal(w, path, stack, i, files, bytes);
        return Some(BadReference), done;
      }
      ghost var child;
      failure, child := MergeOne(w, path, state, stack, result, i, done, files, bytes);
      if failure.Some? {
        return;
      }
      done := done + [child];
    }
    failure := None;
  }

  /** One include: resolved below the current file and merged into its result. */
  method MergeOne(w: World, path: Path, state: ReadState, stack: seq<Path>, result: PolicyDocument, i: nat,
                  ghost done: seq<Tree>, ghost files: nat, ghost bytes: nat)
    returns (failure: Option<PolicyError>, ghost child: Tree)
    requires |stack| < MAX_POLICY_DEPTH && Readable(w, path)
    requires i < |w.files[path].includes| && w.files[path].includes[i].Some?
    requires Progress(w, w.files[path], stack + [path], done, i, result.Content())
    requires Spent(state.files, state.bytes, files, bytes, done)
    modifies state, result
    ensures failure.Some? ==> Unresolvable(w, path, stack, files, bytes)
    ensures failure.None? ==> Progress(w, w.files[path], stack + [path], done + [child], i + 1, result.Content())
    ensures failure.None? ==> Spent(state.files, state.bytes, files, bytes, done + [child])
    decreases MAX_POLICY_DEPTH - |stack|, 0
  {
    var doc := w.files[path];
    child := Tree(path, doc, []);
    var inherited := ResolveFile(w, doc.includes[i].value, state, stack + [path]);
    if inherited.Err? {
      ChildIsNeeded(w, path, stack, done, i, files, bytes);
      return Some(inherited.error), child;
    }
    child := ProgressStep(w, doc, stack + [path], done, i, result.Content(), inherited.value.Content(),
                          state.files - files - ReadsAll(done), state.bytes - bytes - BytesAll(done));
    result.MergeResolved(inherited.value);
    failure := None;
  }

  ghost predicate Spent(nowFiles: int, nowBytes: int, files: int, bytes: int, done: seq<Tree>) {
    && nowFiles == files + ReadsAll(done) <= MAX_POLICY_FILES
    && nowBytes == bytes + BytesAll(done) <= MAX_POLICY_TOTAL_BYTES
  }

  /** How far the includes of a document are merged. */
  ghost predicate Progress(w: World, doc: Document, stack: seq<Path>, done: seq<Tree>, i: nat, content: Resolved) {
    && (doc.profile.Some? ==> doc.profile.value in w.profiles)
    && Unfolded(w, doc, stack, done, i)
    && content == Fold(ProfileLayers(w, doc) + FlattenAll(w, done))
  }

  lemma ProgressStep(w: World, doc: Document, stack: seq<Path>, done: seq<Tree>, i: nat,
                     content: Resolved, inherited: Resolved, files: int, bytes: int) returns (child: Tree)
    requires Progress(w, doc, stack, done, i, content) && i < |doc.includes| && doc.includes[i].Some?
    requires Resolves(w, doc.includes[i].value, stack, inherited, files, bytes)
    requires Avoids(Unfold(w, doc.includes[i].value, MAX_POLICY_DEPTH - |stack|).value, stack)
    ensures Consistent(inherited)
    ensures Progress(w, doc, stack, done + [child], i + 1, MergedResolved(content, inherited))
    ensures ReadsAll(done + [child]) == ReadsAll(done) + files
    ensures BytesAll(done + [child]) == BytesAll(done) + bytes
  {
    child := Unfold(w, doc.includes[i].value, MAX_POLICY_DEPTH - |stack|).value;
    UnfoldGrounded(w, doc.includes[i].value, MAX_POLICY_DEPTH - |stack|);
    IncludeUnfolds(w, doc, stack, done, i, child);
    IncludeMerges(w, doc, done, child);
  }

  /** The first `i` includes of a document, unfolded below `stack`. */
  ghost predicate Unfolded(w: World, doc: Document, stack: seq<Path>, done: seq<Tree>, i: nat) {
    && |stack| <= MAX_POLICY_DEPTH
    && |done| == i <= |doc.includes|
    && (forall k :: 0 <= k < i ==> UnfoldsTo(w, doc.includes[k], MAX_POLICY_DEPTH - |stack|, done[k]))
    && (forall t :: t in done ==> Grounded(w, t) && Avoids(t, stack))
  }

  predicate UnfoldsTo(w: World, ref: Option<Path>, levels: nat, t: Tree) {
    ref.Some? && Unfold(w, ref.value, levels) == Some(t)
  }

  lemma ProfileStep(w: World, doc: Document)
    requires doc.profile.Some? && doc.profile.value in w.profiles
    ensures Consistent(Fold(ProfileLayers(w, doc)))
    ensures MergedResolved(EMPTY, Fold(ProfileLayers(w, doc))) == Fold(ProfileLayers(w, doc))
  {
    FoldConsistent(ProfileLayers(w, doc));
    MergeOfFolds([], ProfileLayers(w, doc));
    assert [] + ProfileLayers(w, doc) == ProfileLayers(w, doc);
  }

  lemma LayersOfOneMore(w: World, before: seq<Layer>, done: seq<Tree>, child: Tree)
    requires (forall t :: t in done ==> Grounded(w, t)) && Grounded(w, child)
    ensures before + FlattenAll(w, done + [child]) == before + FlattenAll(w, done) + Flatten(w, child)
    ensures ReadsAll(done + [child]) == ReadsAll(done) + Reads(child)
    ensures BytesAll(done + [child]) == BytesAll(done) + Bytes(child)
  {
    assert (done + [child])[..|done|] == done;
    assert FlattenAll(w, done + [child]) == FlattenAll(w, done) + Flatten(w, child);
  }

  /** One more include resolved: the tree grows by it. */
  lemma IncludeUnfolds(w: World, doc: Document, stack: seq<Path>, done: seq<Tree>, i: nat, child: Tree)
    requires i < |doc.includes| && Unfolded(w, doc, stack, done, i)
    requires UnfoldsTo(w, doc.includes[i], MAX_POLICY_DEPTH - |stack|, child) && Avoids(child, stack)
    ensures Unfolded(w, doc, stack, done + [child], i + 1)
  {
    UnfoldGrounded(w, doc.includes[i].value, MAX_POLICY_DEPTH - |stack|);
    forall k | 0 <= k < i + 1 ensures UnfoldsTo(w, doc.includes[k], MAX_POLICY_DEPTH - |stack|, (done + [child])[k]) {
    }
    forall t | t in done + [child] ensures Grounded(w, t) && Avoids(t, stack) {
      assert t in done || t == child;
    }
  }

  /** And merging it is laying its layers on top. */
  lemma IncludeMerges(w: World, doc: Document, done: seq<Tree>, child: Tree)
    requires doc.profile.Some? ==> doc.profile.value in w.profiles
    requires (forall t :: t in done ==> Grounded(w, t)) && Grounded(w, child)
    ensures ReadsAll(done + [child]) == ReadsAll(done) + Reads(child)
    ensures BytesAll(done + [child]) == BytesAll(done) + Bytes(child)
    ensures Consistent(Fold(Flatten(w, child)))
    ensures MergedResolved(Fold(ProfileLayers(w, doc) + FlattenAll(w, done)), Fold(Flatten(w, child)))
            == Fold(ProfileLayers(w, doc) + FlattenAll(w, done + [child]))
  {
    FoldConsistent(Flatten(w, child));
    FlattenLabelled(w, child);
    LayersOfOneMore(w, ProfileLayers(w, doc), done, child);
    MergeOfFolds(ProfileLayers(w, doc) + FlattenAll(w, done), Flatten(w, child));
  }

  lemma UnfoldIs(w: World, path: Path, levels: nat, done: seq<Tree>)
    requires levels > 0 && Readable(w, path) && |done| == |w.files[path].includes|
    requires forall k :: 0 <= k < |done| ==> UnfoldsTo(w, w.files[path].includes[k], levels - 1, done[k])
    ensures Unfold(w, path, levels) == Some(Tree(path, w.files[path], done))
  {
    var doc := w.files[path];
    forall k | 0 <= k < |done|
      ensures doc.includes[k].Some? && Unfold(w, doc.includes[k].value, levels - 1) == Some(done[k]) {
      assert UnfoldsTo(w, doc.includes[k], levels - 1, done[k]);
    }
    assert Unfold(w, path, levels).value.children == done;
  }

  lemma TreeComplete(w: World, path: Path, stack: seq<Path>, done: seq<Tree>)
    requires |stack| < MAX_POLICY_DEPTH && Readable(w, path) && path !in stack
    requires Unfolded(w, w.files[path], stack + [path], done, |w.files[path].includes|)
    ensures Unfold(w, path, MAX_POLICY_DEPTH - |stack|) == Some(Tree(path, w.files[path], done))
    ensures Avoids(Tree(path, w.files[path], done), stack)
    ensures Reads(Tree(path, w.files[path], done)) == 1 + ReadsAll(done)
    ensures Bytes(Tree(path, w.files[path], done)) == w.files[path].size + BytesAll(done)
    ensures ResolvedContent(w, path, MAX_POLICY_DEPTH - |stack|)
            == Merged(Fold(ProfileLayers(w, w.files[path]) + FlattenAll(w, done)), w.files[path].overlay, FileSource(path))
  {
    var doc, levels := w.files[path], MAX_POLICY_DEPTH - |stack|;
    UnfoldIs(w, path, levels, done);
    var below := ProfileLayers(w, doc) + FlattenAll(w, done);
    FoldLast(below, Layer(FileSource(path), doc.overlay));
    UnfoldGrounded(w, path, levels);
    assert Listed(Fold(below), FileSource(path)) == Fold(below);
  }

  lemma {:induction false} FlattenLabelled(w: World, t: Tree)
    requires Grounded(w, t)
    ensures Labelled(Flatten(w, t))
    decreases t, 0
  {
    FlattenAllLabelled(w, t.children);
  }

  lemma {:induction false} FlattenAllLabelled(w: World, ts: seq<Tree>)
    requires forall t :: t in ts ==> Grounded(w, t)
    ensures Labelled(FlattenAll(w, ts))
    decreases ts, 1
  {
    if ts != [] {
      FlattenAllLabelled(w, ts[..|ts| - 1]);
      FlattenLabelled(w, ts[|ts| - 1]);
    }
  }

  /** A file only resolves if its next include does, with what is left of the budgets. */
  lemma ChildIsNeeded(w: World, path: Path, stack: seq<Path>, done: seq<Tree>, i: nat, files: nat, bytes: nat)
    requires |stack| < MAX_POLICY_DEPTH && Readable(w, path)
    requires i < |w.files[path].includes| && Unfolded(w, w.files[path], stack + [path], done, i)
    requires w.files[path].includes[i].Some?
    requires !Resolvable(w, w.files[path].includes[i].value, stack + [path], files + ReadsAll(done), bytes + BytesAll(done))
    ensures Unresolvable(w, path, stack, files, bytes)
  {
    forall f: nat, b: nat | f + 1 == files && b + w.files[path].size == bytes && Resolvable(w, path, stack, f, b)
      ensures false
    {
      var t := Unfold(w, path, MAX_POLICY_DEPTH - |stack|).value;
      assert t.children[i] in t.children && Avoids(t.children[i], stack + [path]);
      ChildrenSoFar(w, path, stack, done, i);
      ReadsAllSplit(t.children, i);
    }
  }

  lemma ChildrenSoFar(w: World, path: Path, stack: seq<Path>, done: seq<Tree>, i: nat)
    requires |stack| < MAX_POLICY_DEPTH && Readable(w, path)
    requires i < |w.files[path].includes| && Unfolded(w, w.files[path], stack + [path], done, i)
    requires Unfold(w, path, MAX_POLICY_DEPTH - |stack|).Some?
    ensures Unfold(w, path, MAX_POLICY_DEPTH - |stack|).value.children[..i] == done
  {
    var children := Unfold(w, path, MAX_POLICY_DEPTH - |stack|).value.children;
    forall k | 0 <= k < i ensures children[k] == done[k] {
      assert UnfoldsTo(w, w.files[path].includes[k], MAX_POLICY_DEPTH - |stack| - 1, done[k]);
    }
  }

  // ----- load_policy ------------------------------------------------------------------------------------

  /** The includes of a policy are a tree within all three budgets. */
  predicate Loadable(w: World, path: Path) {
    var t := Unfold(w, path, MAX_POLICY_DEPTH);
    t.Some? && Reads(t.value) <= MAX_POLICY_FILES && Bytes(t.value) <= MAX_POLICY_TOTAL_BYTES
  }

  method LoadPolicy(w: World, path: Path) returns (r: Result<PolicyDocument, PolicyError>)
    ensures r.Ok? <==> Loadable(w, path)
    ensures r.Ok? ==> r.value.Content() == ResolvedContent(w, path, MAX_POLICY_DEPTH)
  {
    var state := new ReadState();
    if Loadable(w, path) {
      TreesAvoidTheirAncestors(w, path, MAX_POLICY_DEPTH, []);
    }
    r := ResolveFile(w, path, state, []);
  }

  lemma {:induction false} DepthIsIrrelevant(w: World, path: Path, a: nat, b: nat)
    requires Unfold(w, path, a).Some? && Unfold(w, path, b).Some?
    ensures Unfold(w, path, a) == Unfold(w, path, b)
    decreases a
  {
    var refs := w.files[path].includes;
    forall i | 0 <= i < |refs| ensures Unfold(w, refs[i].value, a - 1) == Unfold(w, refs[i].value, b - 1) {
      DepthIsIrrelevant(w, refs[i].value, a - 1, b - 1);
    }
    assert Unfold(w, path, a).value.children == Unfold(w, path, b).value.children;
  }

  /** Some finite tree of this path has more than `n` reads. */
  ghost predicate Larger(w: World, path: Path, n: nat) {
    exists levels :: LargerWithin(w, path, levels, n)
  }

  ghost predicate LargerWithin(w: World, path: Path, levels: nat, n: nat) {
    Unfold(w, path, levels).Some? && Reads(Unfold(w, path, levels).value) > n
  }

  /** A path cannot come back below itself: its tree would be a proper part of itself. */
  lemma {:induction false} TreesAvoidTheirAncestors(w: World, path: Path, levels: nat, stack: seq<Path>)
    requires Unfold(w, path, levels).Some?
    requires forall p :: p in stack ==> Larger(w, p, Reads(Unfold(w, path, levels).value))
    ensures Avoids(Unfold(w, path, levels).value, stack)
    decreases levels
  {
    var t := Unfold(w, path, levels).value;
    if path in stack {
      var other :| LargerWithin(w, path, other, Reads(t));
      DepthIsIrrelevant(w, path, other, levels);
    }
    forall c | c in t.children ensures Avoids(c, stack + [path]) {
      var i :| 0 <= i < |t.children| && t.children[i] == c;
      ReadsAllSplit(t.children, i);
      var ref := w.files[path].includes[i].value;
      assert LargerWithin(w, path, levels, Reads(c));
      forall p | p in stack + [path] ensures Larger(w, p, Reads(Unfold(w, ref, levels - 1).value)) {
        if p in stack {
          var other :| LargerWithin(w, p, other, Reads(t));
          assert LargerWithin(w, p, other, Reads(c));
        }
      }
      TreesAvoidTheirAncestors(w, ref, levels - 1, stack + [path]);
    }
  }

  predicate Includes(w: World, a: Path, b: Path) {
    a in w.files && Some(b) in w.files[a].includes
  }

  /** A chain of files, each included by the one before it. */
  predicate IncludeWalk(w: World, walk: seq<Path>) {
    |walk| > 0 && forall i :: 0 < i < |walk| ==> Includes(w, walk[i - 1], walk[i])
  }

  lemma WalkTail(w: World, walk: seq<Path>, n: nat)
    requires IncludeWalk(w, walk) && n < |walk|
    ensures IncludeWalk(w, walk[n..])
  {
    forall i | 0 < i < |walk[n..]| ensures Includes(w, walk[n..][i - 1], walk[n..][i]) {
      assert Includes(w, walk[n + i - 1], walk[n + i]);
    }
  }

  /** An included file's tree is a proper part of the including file's. */
  lemma IncludedIsSmaller(w: World, a: Path, b: Path, levels: nat)
    requires Includes(w, a, b) && Unfold(w, a, levels).Some?
    ensures levels > 0 && Unfold(w, b, levels - 1).Some?
    ensures Reads(Unfold(w, b, levels - 1).value) < Reads(Unfold(w, a, levels).value)
  {
    var refs := w.files[a].includes;
    var k :| 0 <= k < |refs| && refs[k] == Some(b);
    ReadsAllSplit(Unfold(w, a, levels).value.children, k);
  }

  lemma {:induction false} WalkIsShort(w: World, walk: seq<Path>, levels: nat)
    requires IncludeWalk(w, walk) && Unfold(w, walk[0], levels).Some?
    ensures |walk| <= levels
    decreases |walk|
  {
    if |walk| > 1 {
      IncludedIsSmaller(w, walk[0], walk[1], levels);
      WalkTail(w, walk, 1);
      WalkIsShort(w, walk[1..], levels - 1);
    }
  }

  lemma {:induction false} WalkDescends(w: World, walk: seq<Path>, levels: nat, n: nat) returns (l: nat)
    requires IncludeWalk(w, walk) && Unfold(w, walk[0], levels).Some? && n < |walk|
    ensures Unfold(w, walk[n], l).Some? && (n == 0 ==> l == levels)
    ensures n > 0 ==> Reads(Unfold(w, walk[n], l).value) < Reads(Unfold(w, walk[0], levels).value)
    decreases n
  {
    l := levels;
    if n > 0 {
      IncludedIsSmaller(w, walk[0], walk[1], levels);
      WalkTail(w, walk, 1);
      l := WalkDescends(w, walk[1..], levels - 1, n - 1);
      assert walk[1..][n - 1] == walk[n];
    }
  }

  /**
   * Loading only succeeds within 8 levels and never on a cyclic include graph: every chain of
   * includes from the root is at most 8 files long and never visits a file twice.
   */
  lemma LoadableMeansShallowAndAcyclic(w: World, path: Path, walk: seq<Path>)
    requires Loadable(w, path) && IncludeWalk(w, walk) && walk[0] == path
    ensures |walk| <= MAX_POLICY_DEPTH
    ensures NoRepeats(walk)
  {
    WalkIsShort(w, walk, MAX_POLICY_DEPTH);
    forall i, j | 0 <= i < j < |walk| ensures walk[i] != walk[j] {
      var li := WalkDescends(w, walk, MAX_POLICY_DEPTH, i);
      WalkTail(w, walk, i);
      var lj := WalkDescends(w, walk[i..], li, j - i);
      if walk[i] == walk[j] {
        DepthIsIrrelevant(w, walk[i], li, lj);
      }
    }
  }

  // ----- provenance ---------------------------------------------------------------------------------------

  /** What the profile or file behind a label says for itself. */
  function Says(w: World, source: Source): Option<Overlay> {
    match source
    case BuiltInDefault => None
    case ProfileSource(name) => if name in w.profiles then Some(w.profiles[name]) else None
    case FileSource(path) => if path in w.files then Some(w.files[path].overlay) else None
  }

  lemma {:induction false} FlattenSpeaksForFiles(w: World, t: Tree, l: Layer)
    requires Grounded(w, t) && l in Flatten(w, t)
    ensures Says(w, l.source) == Some(l.overlay)
    decreases t, 0
  {
    if l in FlattenAll(w, t.children) {
      FlattenAllSpeaksForFiles(w, t.children, l);
    }
  }

  lemma {:induction false} FlattenAllSpeaksForFiles(w: World, ts: seq<Tree>, l: Layer)
    requires (forall t :: t in ts ==> Grounded(w, t)) && l in FlattenAll(w, ts)
    ensures Says(w, l.source) == Some(l.overlay)
    decreases ts, 1
  {
    if l in FlattenAll(w, ts[..|ts| - 1]) {
      FlattenAllSpeaksForFiles(w, ts[..|ts| - 1], l);
    } else {
      FlattenSpeaksForFiles(w, ts[|ts| - 1], l);
    }
  }

  /** The layers of a loadable policy, in post-order. */
  function LayersOf(w: World, path: Path): seq<Layer>
    requires Loadable(w, path)
  {
    UnfoldGrounded(w, path, MAX_POLICY_DEPTH);
    Flatten(w, Unfold(w, path, MAX_POLICY_DEPTH).value)
  }

  /** Recursive inheritance is the flat reading of the layers: the last one to define a key wins. */
  lemma InheritanceIsLastWriterWins(w: World, path: Path, k: Key)
    requires Loadable(w, path)
    ensures var c, l := ResolvedContent(w, path, MAX_POLICY_DEPTH), LastDefining(LayersOf(w, path), k);
            && (k in c.table <==> l.Some?)
            && (l.Some? ==> k in l.value.overlay.table && c.table[k] == l.value.overlay.table[k])
    ensures var c, l := ResolvedContent(w, path, MAX_POLICY_DEPTH), LastDefault(LayersOf(w, path));
            (l.None? ==> c.default == Warn) && (l.Some? ==> l.value.overlay.default == Some(c.default))
  {
    FoldIsLastWriter(LayersOf(w, path), k);
    FoldDefaultIsLast(LayersOf(w, path));
  }

  /**
   * Provenance is true: exactly the resolved lists and budgets have a source, the source itself
   * defines that key with that very value, and budgets are recorded twice alike.
   */
  lemma ProvenanceIsTrue(w: World, path: Path, k: Key)
    requires Loadable(w, path)
    ensures var c := ResolvedContent(w, path, MAX_POLICY_DEPTH);
            && (k in c.ruleSources <==> k in c.table)
            && (k in c.table ==> SaysValue(w, c.ruleSources[k], k, c.table[k]))
            && (k in c.budgetSources <==> k in c.table && k.BudgetKey?)
            && (k in c.budgetSources ==> c.budgetSources[k] == c.ruleSources[k])
  {
    FoldProvenance(LayersOf(w, path), k);
    if LastDefining(LayersOf(w, path), k).Some? {
      LayersSpeakForFiles(w, path, LastDefining(LayersOf(w, path), k).value);
    }
  }

  lemma FoldProvenance(layers: seq<Layer>, k: Key)
    ensures k in Fold(layers).table <==> LastDefining(layers, k).Some?
    ensures k in Fold(layers).ruleSources <==> k in Fold(layers).table
    ensures k in Fold(layers).budgetSources <==> k in Fold(layers).table && k.BudgetKey?
    ensures k in Fold(layers).budgetSources ==> Fold(layers).budgetSources[k] == Fold(layers).ruleSources[k]
    ensures k in Fold(layers).table ==>
              var l := LastDefining(layers, k).value;
              l in layers && k in l.overlay.table
              && Fold(layers).table[k] == l.overlay.table[k] && Fold(layers).ruleSources[k] == l.source
  {
    FoldConsistent(layers);
    FoldIsLastWriter(layers, k);
  }

  lemma LayersSpeakForFiles(w: World, path: Path, l: Layer)
    requires Loadable(w, path) && l in LayersOf(w, path)
    ensures Says(w, l.source) == Some(l.overlay)
    ensures l.source != BuiltInDefault
  {
    UnfoldGrounded(w, path, MAX_POLICY_DEPTH);
    FlattenSpeaksForFiles(w, Unfold(w, path, MAX_POLICY_DEPTH).value, l);
  }

  predicate SaysValue(w: World, source: Source, k: Key, value: Value) {
    Says(w, source).Some? && k in Says(w, source).value.table && Says(w, source).value.table[k] == value
  }

  /** The default's source likewise: it defines that default, or nothing does and it is warn. */
  lemma DefaultProvenanceIsTrue(w: World, path: Path)
    requires Loadable(w, path)
    ensures var c := ResolvedContent(w, path, MAX_POLICY_DEPTH);
            if c.defaultSource == BuiltInDefault
            then c.default == Warn && forall l :: l in LayersOf(w, path) ==> l.overlay.default.None?
            else Says(w, c.defaultSource).Some? && Says(w, c.defaultSource).value.default == Some(c.default)
  {
    var layers := LayersOf(w, path);
    FoldDefaultIsLast(layers);
    if LastDefault(layers).Some? {
      LayersSpeakForFiles(w, path, LastDefault(layers).value);
    } else {
      NoDefaultAnywhere(layers);
    }
  }

  lemma {:induction false} NoDefaultAnywhere(layers: seq<Layer>)
    requires LastDefault(layers).None?
    ensures forall l :: l in layers ==> l.overlay.default.None?
  {
    if layers != [] {
      NoDefaultAnywhere(layers[..|layers| - 1]);
      assert layers == layers[..|layers| - 1] + [layers[|layers| - 1]];
    }
  }

  /** The recorded sources: every layer's source once, in the order of first occurrence. */
  lemma SourcesAreFirstOccurrences(w: World, path: Path)
    requires Loadable(w, path)
    ensures var all, kept := SourcesOf(LayersOf(w, path)), ResolvedContent(w, path, MAX_POLICY_DEPTH).sources;
            && NoRepeats(kept)
            && (forall s :: s in kept <==> s in all)
            && (forall i, j :: 0 <= i < j < |kept| ==> FirstBefore(all, kept[i], kept[j]))
  {
    FoldSources(LayersOf(w, path));
    DedupIsFirstOccurrences(SourcesOf(LayersOf(w, path)));
  }
}
