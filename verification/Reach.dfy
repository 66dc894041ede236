/** Every file that references lead to, with every directory they lead there with, against what the walk records: it
    enters a file once, for the directory it first comes with. */
module Reach {
  import opened Wrappers
  import opened Paths
  import opened Inputs
  import opened Coverage
  import opened ProjectInputs
  import opened Relevance

  /*** Places ***/

  predicate IsRoot(p: Project, place: (string, string)) {
    place.1 == p.workingDir &&
    exists i :: 0 <= i < |p.composeFiles| && !IsRemote(p.composeFiles[i]) &&
        ResolveInput(p.workingDir, p.composeFiles[i]) == Some(place.0)
  }

  /** A way from a compose file of the project along references, of any length. */
  predicate IsWay(tree: Tree, parse: Parser, p: Project, way: seq<(string, string)>) {
    && |way| > 0 && IsRoot(p, way[0])
    && forall k :: 0 < k < |way| ==> Refers(tree, parse, way[k - 1].0, way[k - 1].1, way[k].0, way[k].1)
  }

  ghost predicate EndsAt(tree: Tree, parse: Parser, p: Project, way: seq<(string, string)>, place: (string, string)) {
    IsWay(tree, parse, p, way) && way[|way| - 1] == place
  }

  ghost predicate IsReached(tree: Tree, parse: Parser, p: Project, place: (string, string)) {
    exists way :: EndsAt(tree, parse, p, way, place)
  }

  /** All places references lead to. */
  ghost function Reached(tree: Tree, parse: Parser, p: Project): Places {
    iset place: (string, string) | IsReached(tree, parse, p, place)
  }

  lemma ReachedIsClosed(tree: Tree, parse: Parser, p: Project)
    ensures ClosedUnder(tree, parse, Reached(tree, parse, p))
    ensures forall place :: IsRoot(p, place) ==> place in Reached(tree, parse, p)
  {
    hide Refers, IsRoot;
    forall f, d, f', d' | (f, d) in Reached(tree, parse, p) && Refers(tree, parse, f, d, f', d')
      ensures (f', d') in Reached(tree, parse, p)
    {
      assert IsReached(tree, parse, p, (f, d));
      var way :| EndsAt(tree, parse, p, way, (f, d));
      assert EndsAt(tree, parse, p, way + [(f', d')], (f', d'));
    }
    forall place | IsRoot(p, place) ensures place in Reached(tree, parse, p) {
      assert EndsAt(tree, parse, p, [place], place);
    }
  }

  /*** Directories that make no difference ***/

  predicate SameInclude(e: Include, d: string, d': string) {
    && (forall i :: 0 <= i < |e.paths| ==> ResolveInput(d, e.paths[i]) == ResolveInput(d', e.paths[i]))
    && (forall i :: 0 <= i < |e.envFiles| ==> ResolveInput(d, e.envFiles[i]) == ResolveInput(d', e.envFiles[i]))
    && (e.paths != [] ==> IncludeDir(d, e) == IncludeDir(d', e))
  }

  predicate SameIncludes(node: Node, d: string, d': string) {
    node.List? ==>
      forall k :: 0 <= k < |node.items| && IncludeOf(node.items[k]).Some? ==>
        SameInclude(IncludeOf(node.items[k]).value, d, d')
  }

  predicate SameService(service: Node, d: string, d': string) {
    ExtendsOf(service).Some? ==> ResolveInput(d, ExtendsOf(service).value) == ResolveInput(d', ExtendsOf(service).value)
  }

  predicate SameExtends(node: Node, d: string, d': string) {
    node.Mapping? ==> forall name :: name in node.fields ==> SameService(node.fields[name], d, d')
  }

  /** The references of the document resolve alike under both directories. */
  predicate SameRefs(doc: Doc, d: string, d': string) {
    SameIncludes(Field(doc, "include"), d, d') && SameExtends(Field(doc, "services"), d, d')
  }

  /** No file is reached with two directories under which its references resolve differently. */
  ghost predicate Unambiguous(tree: Tree, parse: Parser, p: Project) {
    forall f, d, d' ::
      (f, d) in Reached(tree, parse, p) && (f, d') in Reached(tree, parse, p) && FirstDoc(tree, parse, f).Some? ==>
        SameRefs(FirstDoc(tree, parse, f).value, d, d')
  }

  lemma CoveredAlike(tree: Tree, parse: Parser, w: Walk, file: string, d: string, d': string)
    requires CoveredFrom(tree, parse, w, file, d) && SameRefs(FirstDoc(tree, parse, file).value, d, d')
    ensures CoveredFrom(tree, parse, w, file, d')
  {
    var includes := Field(FirstDoc(tree, parse, file).value, "include");
    hide ResolveInput, IncludeDir, IncludeOf, ExtendsOf, IsRemote;
    if includes.List? {
      forall k | 0 <= k < |includes.items| ensures ItemCovered(w, includes.items[k], d') {
        assert ItemCovered(w, includes.items[k], d);
        IncludeAlike(w, IncludeOf(includes.items[k]).value, d, d');
      }
    }
  }

  lemma IncludeAlike(w: Walk, e: Include, d: string, d': string)
    requires IncludeCovered(w, e, d) && SameInclude(e, d, d')
    ensures IncludeCovered(w, e, d')
  {
    forall i | 0 <= i < |e.paths| ensures RefCovered(w, d', e.paths[i]) {
      assert RefCovered(w, d, e.paths[i]);
    }
    forall i | 0 <= i < |e.envFiles| ensures Known(w.paths, ResolveInput(d', e.envFiles[i])) {
      assert Known(w.paths, ResolveInput(d, e.envFiles[i]));
    }
  }

  /** What a covered place refers to has been entered. */
  lemma ReferredIsEntered(tree: Tree, parse: Parser, w: Walk, file: string, dir: string, file': string, dir': string)
    requires CoveredFrom(tree, parse, w, file, dir) && Refers(tree, parse, file, dir, file', dir')
    ensures file' in w.seen
  {
    var doc := FirstDoc(tree, parse, file).value;
    var includes, services := Field(doc, "include"), Field(doc, "services");
    hide ResolveInput, IncludeDir, IncludeOf, ExtendsOf, IsRemote;
    if IncludesName(includes, dir, file', dir') {
      var k :| 0 <= k < |includes.items| && ItemNames(includes.items[k], dir, file', dir');
      var e := IncludeOf(includes.items[k]).value;
      assert ItemCovered(w, includes.items[k], dir);
      var i :| 0 <= i < |e.paths| && !IsRemote(e.paths[i]) && ResolveInput(dir, e.paths[i]) == Some(file');
      assert RefCovered(w, dir, e.paths[i]);
    } else {
      var name :| name in services.fields && ServiceNames(services.fields[name], dir, file', dir');
      assert ServiceCovered(w, services.fields[name], dir);
    }
  }

  /*** Closure over everything reached ***/

  lemma EnteredIsCovered(tree: Tree, parse: Parser, p: Project, place: (string, string))
    requires BaseOk(p.workingDir) && Walked(tree, parse, p).complete && Unambiguous(tree, parse, p)
    requires place in Reached(tree, parse, p) && place.0 in Walked(tree, parse, p).seen
    ensures CoveredFrom(tree, parse, Walked(tree, parse, p), place.0, place.1)
  {
    var w := Walked(tree, parse, p);
    WalkedCovers(tree, parse, p);
    hide CoveredFrom, SameRefs, Walked, Reached;
    assert Covered(tree, parse, Reached(tree, parse, p), w, place.0);
    var dir :| BaseOk(dir) && (place.0, dir) in Reached(tree, parse, p) && CoveredFrom(tree, parse, w, place.0, dir);
    assert FirstDoc(tree, parse, place.0).Some? by { CoveredHasDoc(tree, parse, w, place.0, dir); }
    CoveredAlike(tree, parse, w, place.0, dir, place.1);
  }

  lemma CoveredHasDoc(tree: Tree, parse: Parser, w: Walk, file: string, dir: string)
    requires CoveredFrom(tree, parse, w, file, dir)
    ensures FirstDoc(tree, parse, file).Some?
  {
  }

  lemma WalkedCovers(tree: Tree, parse: Parser, p: Project)
    requires BaseOk(p.workingDir)
    ensures var w := Walked(tree, parse, p);
      && Closes(tree, parse, Reached(tree, parse, p), EMPTY, w)
      && (w.complete ==> forall i :: 0 <= i < |p.composeFiles| ==> RefCovered(w, p.workingDir, p.composeFiles[i]))
  {
    var reach := Reached(tree, parse, p);
    ReachedIsClosed(tree, parse, p);
    hide Reached, ClosedUnder, ResolveInput, IsRemote;
    forall i | 0 <= i < |p.composeFiles| ensures RefIn(reach, p.workingDir, p.composeFiles[i], p.workingDir) {
      var abs := ResolveInput(p.workingDir, p.composeFiles[i]);
      if !IsRemote(p.composeFiles[i]) && abs.Some? {
        assert IsRoot(p, (abs.value, p.workingDir));
      }
    }
    VisitAllCovers(tree, parse, reach, EMPTY, p.composeFiles, p.workingDir, p.workingDir, 0);
  }

  lemma RootIsEntered(tree: Tree, parse: Parser, p: Project, place: (string, string))
    requires BaseOk(p.workingDir) && Walked(tree, parse, p).complete && IsRoot(p, place)
    ensures place.0 in Walked(tree, parse, p).seen
  {
    WalkedCovers(tree, parse, p);
    hide Walked, ResolveInput, IsRemote, Reached, Closes;
    var i :| 0 <= i < |p.composeFiles| && !IsRemote(p.composeFiles[i])
        && ResolveInput(p.workingDir, p.composeFiles[i]) == Some(place.0);
    assert RefCovered(Walked(tree, parse, p), p.workingDir, p.composeFiles[i]);
  }

  lemma WayEnds(tree: Tree, parse: Parser, p: Project, way: seq<(string, string)>)
    requires IsWay(tree, parse, p, way)
    ensures way[|way| - 1] in Reached(tree, parse, p)
  {
    assert EndsAt(tree, parse, p, way, way[|way| - 1]);
  }

  lemma {:induction false} WayIsCovered(tree: Tree, parse: Parser, p: Project, way: seq<(string, string)>)
    requires BaseOk(p.workingDir) && Walked(tree, parse, p).complete && Unambiguous(tree, parse, p)
        && IsWay(tree, parse, p, way)
    ensures var place := way[|way| - 1];
      place.0 in Walked(tree, parse, p).seen && CoveredFrom(tree, parse, Walked(tree, parse, p), place.0, place.1)
    decreases |way|
  {
    hide Walked, Refers, CoveredFrom, Unambiguous, IsRoot, Reached;
    var n := |way| - 1;
    var w := Walked(tree, parse, p);
    WayEnds(tree, parse, p, way);
    if n == 0 {
      RootIsEntered(tree, parse, p, way[0]);
    } else {
      WayIsCovered(tree, parse, p, way[..n]);
      ReferredIsEntered(tree, parse, w, way[n - 1].0, way[n - 1].1, way[n].0, way[n].1);
    }
    EnteredIsCovered(tree, parse, p, way[n]);
  }

  /** When no file is reached with two directories that make a difference, a complete set of inputs is closed over
      everything reached: however far references lead, and with whatever directories, each file is an input, could be
      read, and has only inputs for references. */
  lemma CompleteReachesAll(tree: Tree, parse: Parser, p: Project, place: (string, string))
    requires BaseOk(p.workingDir) && InputsOf(tree, parse, p).complete && Unambiguous(tree, parse, p)
    requires place in Reached(tree, parse, p)
    ensures var w := Walked(tree, parse, p);
      && place.0 in InputsOf(tree, parse, p).paths
      && CoveredFrom(tree, parse, w, place.0, place.1)
      && forall q :: q in w.paths ==> q in InputsOf(tree, parse, p).paths
  {
    assert IsReached(tree, parse, p, place);
    var way :| EndsAt(tree, parse, p, way, place);
    WayIsCovered(tree, parse, p, way);
    WalkedCovers(tree, parse, p);
  }

  /*** Loading ***/

  /** An include of a document read under `base` brings this environment file. */
  predicate IncludeBrings(e: Include, base: string, env: string) {
    || (exists i :: 0 <= i < |e.envFiles| && ResolveInput(base, e.envFiles[i]) == Some(env))
    || (e.envFiles == [] && e.paths != [] && IncludeDir(base, e).Some?
        && ResolveInput(IncludeDir(base, e).value, ".env") == Some(env))
  }

  predicate Brings(tree: Tree, parse: Parser, file: string, base: string, env: string) {
    var doc := FirstDoc(tree, parse, file);
    doc.Some? &&
    var node := Field(doc.value, "include");
    node.List? &&
    exists k ::
      && 0 <= k < |node.items| && IncludeOf(node.items[k]).Some?
      && IncludeBrings(IncludeOf(node.items[k]).value, base, env)
  }

  /** The trees agree at every file reached, at every environment file an include reached brings, and at and below
      everything the loaded project declares. */
  ghost predicate SameReached(a: Tree, b: Tree, parse: Parser, p: Project) {
    && (forall f, d :: (f, d) in Reached(a, parse, p) ==> a(f) == b(f))
    && (forall f, d, env :: (f, d) in Reached(a, parse, p) && Brings(a, parse, f, d, env) ==> a(env) == b(env))
    && SameBelow(a, b, Declared(p).paths)
  }

  /** A loader that reads what references lead to, with whatever directories. */
  ghost predicate FollowsReferences(load: Loader, parse: Parser, a: Tree, b: Tree, files: seq<string>, name: string) {
    var p := load(a, files, name);
    p.Some? ==> BaseOk(p.value.workingDir) && (SameReached(a, b, parse, p.value) ==> load(b, files, name) == p)
  }

  lemma BroughtIsKnown(tree: Tree, parse: Parser, w: Walk, file: string, dir: string, env: string)
    requires CoveredFrom(tree, parse, w, file, dir) && Brings(tree, parse, file, dir, env)
    ensures env in w.paths
  {
    var node := Field(FirstDoc(tree, parse, file).value, "include");
    hide ResolveInput, IncludeDir, IncludeOf, ExtendsOf, IsRemote;
    var k :| 0 <= k < |node.items| && IncludeOf(node.items[k]).Some?
        && IncludeBrings(IncludeOf(node.items[k]).value, dir, env);
    var e := IncludeOf(node.items[k]).value;
    assert ItemCovered(w, node.items[k], dir);
    if i :| 0 <= i < |e.envFiles| && ResolveInput(dir, e.envFiles[i]) == Some(env) {
      assert Known(w.paths, ResolveInput(dir, e.envFiles[i]));
    }
  }

  lemma InputsAgree(a: Tree, b: Tree, parse: Parser, p: Project, q: string)
    requires BaseOk(p.workingDir) && SameBelow(a, b, InputsOf(a, parse, p).paths) && q in InputsOf(a, parse, p).paths
    ensures a(q) == b(q)
  {
    var inputs := InputsOf(a, parse, p).paths;
    InputsCanonical(a, parse, p);
    var j :| 0 <= j < |inputs| && inputs[j] == q;
    assert Touches(inputs[j], q);
  }

  /** Such a loader depends on nothing outside a complete set of inputs, as long as the project is unambiguous: then a
      change passed over changes nothing that it loads. */
  lemma ReferencesAreInputs(load: Loader, parse: Parser, a: Tree, b: Tree, files: seq<string>, name: string)
    requires FollowsReferences(load, parse, a, b, files, name)
    requires load(a, files, name).Some? ==> Unambiguous(a, parse, load(a, files, name).value)
    ensures DependsOnInputs(load, parse, a, b, files, name)
  {
    var p := load(a, files, name);
    if p.Some? && InputsOf(a, parse, p.value).complete && SameBelow(a, b, InputsOf(a, parse, p.value).paths) {
      InputsSameReached(a, b, parse, p.value);
    }
  }

  lemma InputsSameReached(a: Tree, b: Tree, parse: Parser, p: Project)
    requires BaseOk(p.workingDir) && Unambiguous(a, parse, p) && InputsOf(a, parse, p).complete
    requires SameBelow(a, b, InputsOf(a, parse, p).paths)
    ensures SameReached(a, b, parse, p)
  {
    var inputs := InputsOf(a, parse, p).paths;
    assert forall q :: q in Declared(p).paths ==> q in inputs;
    hide InputsOf, Reached, Brings, CoveredFrom, Unambiguous, Touches, Canonical;
    forall f, d | (f, d) in Reached(a, parse, p) ensures a(f) == b(f) {
      CompleteReachesAll(a, parse, p, (f, d));
      InputsAgree(a, b, parse, p, f);
    }
    forall f, d, env | (f, d) in Reached(a, parse, p) && Brings(a, parse, f, d, env) ensures a(env) == b(env) {
      CompleteReachesAll(a, parse, p, (f, d));
      BroughtIsKnown(a, parse, Walked(a, parse, p), f, d, env);
      InputsAgree(a, b, parse, p, env);
    }
    SubsetSameBelow(a, b, inputs, Declared(p).paths);
  }

  lemma SubsetSameBelow(a: Tree, b: Tree, inputs: seq<string>, fewer: seq<string>)
    requires SameBelow(a, b, inputs) && forall q :: q in fewer ==> q in inputs
    ensures SameBelow(a, b, fewer)
  {
    hide Touches, Canonical;
    forall j, p | 0 <= j < |fewer| && Canonical(p) && IsAbs(p) && Touches(fewer[j], p) ensures a(p) == b(p) {
      assert fewer[j] in inputs;
      var i :| 0 <= i < |inputs| && inputs[i] == fewer[j];
      assert Touches(inputs[i], p);
    }
    assert forall p :: Canonical(p) ==> IsAbs(p) by { CanonicalAbs(); }
  }

  lemma CanonicalAbs()
    ensures forall p :: Canonical(p) ==> IsAbs(p)
  {
  }

  /*** A file included twice ***/

  /** Two project directories `a` and `b`, a main file, a shared one that the main file includes as "c" for each of
      them, and what "x" is in either. */
  datatype Layout = Layout(root: string, a: string, b: string, main: string, shared: string, underA: string,
      underB: string)
  {
    function Env(dir: string): string
      requires ResolveInput(dir, ".env").Some?
    {
      ResolveInput(dir, ".env").value
    }

    predicate Resolves() {
      && ResolveInput(root, main) == Some(main) && !IsRemote(main)
      && a != "" && ResolveInput(root, a) == Some(a) && b != "" && ResolveInput(root, b) == Some(b)
      && ResolveInput(root, "c") == Some(shared) && !IsRemote("c")
      && ResolveInput(a, "x") == Some(underA) && Dir(underA) == a
      && ResolveInput(b, "x") == Some(underB) && Dir(underB) == b && !IsRemote("x")
      && ResolveInput(a, ".env").Some? && ResolveInput(b, ".env").Some? && ResolveInput(root, ".env").Some?
    }

    predicate Distinct()
      requires Resolves()
    {
      && main != shared && main != underA && shared != underA
      && underB !in [main, shared, underA, Env(a), Env(b), Env(root)]
    }

    function Item(dir: string): Node {
      Mapping(map["path" := Str("c"), "project_directory" := Str(dir)])
    }

    function Items(): seq<Node> {
      [Item(a), Item(b)]
    }

    function Parse(data: Bytes): Option<seq<Doc>> {
      if data == "main" then Some([map["include" := List(Items())]])
      else if data == "shared" then Some([map["include" := List([Str("x")])]])
      else Some([map["name" := Str("leaf")]])
    }

    function Read(p: string): Option<Bytes> {
      if p == main then Some("main") else if p == shared then Some("shared")
      else if p == underA || p == underB then Some("leaf") else None
    }

    function Tree(): Tree {
      p => Read(p)
    }

    function Parser(): Parser {
      data => Parse(data)
    }

    function Twice(): Project {
      Project(root, [main], map[], [], [])
    }
  }

  lemma OneInclude(tree: Tree, parse: Parser, w: Walk, e: Include, base: string, dir: string, depth: nat)
    requires depth < MAX_INCLUDE_DEPTH && |e.paths| == 1 && e.envFiles == [] && IncludeDir(base, e) == Some(dir)
        && dir != "" && ResolveInput(dir, ".env").Some?
    ensures WalkInclude(tree, parse, w, e, base, depth)
        == Visit(tree, parse, w.Add(ResolveInput(dir, ".env")), e.paths[0], base, dir, depth + 1)
  {
    hide Visit, ResolveInput;
    var w2 := w.Add(ResolveInput(dir, ".env"));
    assert AddEnvFiles(w, [], base) == w;
    assert e.paths[..0] == [];
    assert VisitAll(tree, parse, w2, [], base, dir, depth + 1) == w2;
  }

  lemma OneItem(tree: Tree, parse: Parser, w: Walk, items: seq<Node>, base: string, depth: nat)
    requires depth < MAX_INCLUDE_DEPTH && items != [] && IncludeOf(items[|items| - 1]).Some?
    ensures IncludeAll(tree, parse, w, items, base, depth) ==
      WalkInclude(tree, parse, IncludeAll(tree, parse, w, items[..|items| - 1], base, depth),
          IncludeOf(items[|items| - 1]).value, base, depth)
  {
    hide WalkInclude;
  }

  /** The walk of the shared file, for the first directory. */
  lemma SharedWalk(y: Layout, w: Walk)
    requires y.Resolves() && y.Distinct() && y.shared !in w.seen && y.underA !in w.seen
    ensures Visit(y.Tree(), y.Parser(), w, "c", y.root, y.a, 1) ==
      Walk(w.paths + [y.shared] + [y.Env(y.a)] + [y.underA], w.seen + {y.shared} + {y.underA}, w.complete)
  {
    hide ResolveInput, IsRemote, Dir;
    var tree, parse := y.Tree(), y.Parser();
    var e := Include(["x"], "", []);
    var w1 := w.Enter(y.shared);
    var w2 := w1.Add(ResolveInput(y.a, ".env"));
    LeafWalk(y, w2);
    OneInclude(tree, parse, w1, e, y.a, y.a, 1);
    var items := [Str("x")];
    assert IncludeOf(items[0]) == Some(e) && items[..0] == [];
    OneItem(tree, parse, w1, items, y.a, 1);
    hide IncludeAll, WalkInclude;
    assert FirstDoc(tree, parse, y.shared) == Some(map["include" := List(items)]);
  }

  lemma LeafWalk(y: Layout, w: Walk)
    requires y.Resolves() && y.Distinct() && y.underA !in w.seen
    ensures Visit(y.Tree(), y.Parser(), w, "x", y.a, y.a, 2) == w.Enter(y.underA)
  {
    hide ResolveInput, IsRemote, Dir;
    assert FirstDoc(y.Tree(), y.Parser(), y.underA) == Some(map["name" := Str("leaf")]);
  }

  lemma ItemsWalk(y: Layout, w1: Walk, w3: Walk, w4: Walk)
    requires y.Resolves() && w3 == Visit(y.Tree(), y.Parser(), w1.Add(ResolveInput(y.a, ".env")), "c", y.root, y.a, 1)
    requires w4 == Visit(y.Tree(), y.Parser(), w3.Add(ResolveInput(y.b, ".env")), "c", y.root, y.b, 1)
    ensures IncludeAll(y.Tree(), y.Parser(), w1, y.Items(), y.root, 0) == w4
  {
    hide ResolveInput, IsRemote, Dir, Visit;
    var tree, parse := y.Tree(), y.Parser();
    var a, b := Include(["c"], y.a, []), Include(["c"], y.b, []);
    var items := y.Items();
    assert IncludeOf(items[0]) == Some(a) && IncludeOf(items[1]) == Some(b);
    assert items[..1] == [items[0]] && items[..1][..0] == [];
    OneInclude(tree, parse, w1, a, y.root, y.a, 0);
    OneInclude(tree, parse, w3, b, y.root, y.b, 0);
    OneItem(tree, parse, w1, items[..1], y.root, 0);
    OneItem(tree, parse, w1, items, y.root, 0);
  }

  /** The walk of the whole project: the shared file is not entered again for the second directory. */
  lemma TwiceWalk(y: Layout)
    requires y.Resolves() && y.Distinct()
    ensures var w := Walked(y.Tree(), y.Parser(), y.Twice()); w.complete && y.underB !in w.paths
  {
    hide ResolveInput, IsRemote, Dir, WalkInclude, IncludeAll;
    var tree, parse := y.Tree(), y.Parser();
    var w1 := EMPTY.Enter(y.main);
    var w2 := w1.Add(ResolveInput(y.a, ".env"));
    SharedWalk(y, w2);
    var w3 := Visit(tree, parse, w2, "c", y.root, y.a, 1);
    var w4 := w3.Add(ResolveInput(y.b, ".env"));
    assert Visit(tree, parse, w4, "c", y.root, y.b, 1) == w4;
    ItemsWalk(y, w1, w3, w4);
    MainWalk(y, w1, w4);
    OneFile(tree, parse, y.Twice());
    hide Visit, Walked;
    assert w4.paths == [y.main] + [y.Env(y.a)] + [y.shared] + [y.Env(y.a)] + [y.underA] + [y.Env(y.b)];
  }

  lemma OneFile(tree: Tree, parse: Parser, p: Project)
    requires |p.composeFiles| == 1
    ensures Walked(tree, parse, p) == Visit(tree, parse, EMPTY, p.composeFiles[0], p.workingDir, p.workingDir, 0)
  {
    hide Visit;
    assert p.composeFiles[..0] == [];
    assert VisitAll(tree, parse, EMPTY, [], p.workingDir, p.workingDir, 0) == EMPTY;
  }

  lemma MainWalk(y: Layout, w1: Walk, w: Walk)
    requires y.Resolves() && y.Distinct() && w1 == EMPTY.Enter(y.main)
    requires IncludeAll(y.Tree(), y.Parser(), w1, y.Items(), y.root, 0) == w
    ensures Visit(y.Tree(), y.Parser(), EMPTY, y.main, y.root, y.root, 0) == w
  {
    hide ResolveInput, IsRemote, Dir, IncludeAll;
    assert FirstDoc(y.Tree(), y.Parser(), y.main) == Some(map["include" := List(y.Items())]);
  }

  /** Without that condition it fails: the inputs are complete, the shared file is reached with the second directory,
      and what it refers to from there is not an input. */
  lemma TwiceMisses(y: Layout)
    requires y.Resolves() && y.Distinct()
    ensures InputsOf(y.Tree(), y.Parser(), y.Twice()).complete
    ensures (y.shared, y.b) in Reached(y.Tree(), y.Parser(), y.Twice())
    ensures Refers(y.Tree(), y.Parser(), y.shared, y.b, y.underB, y.b)
        && y.underB !in InputsOf(y.Tree(), y.Parser(), y.Twice()).paths
  {
    TwiceWalk(y);
    TwiceDeclares(y);
    SharedRefers(y);
    SharedReached(y);
    hide ResolveInput, IsRemote, Dir, Walked, Reached, Refers, Declared;
  }

  lemma TwiceDeclares(y: Layout)
    requires y.Resolves()
    ensures Declared(y.Twice()) == Found([y.Env(y.root)], true)
  {
    hide ResolveInput, IsRemote, Dir;
    var none: map<string, Service> := map[];
    assert none.Keys == {};
    assert Claims(y.Twice()) == [];
  }

  lemma SharedRefers(y: Layout)
    requires y.Resolves() && y.Distinct()
    ensures Refers(y.Tree(), y.Parser(), y.shared, y.b, y.underB, y.b)
  {
    hide ResolveInput, IsRemote, Dir;
    var x := Include(["x"], "", []);
    assert x.paths[0] == "x";
    assert IncludeNames(x, y.b, y.underB, y.b);
    var items := [Str("x")];
    assert IncludeOf(items[0]) == Some(x);
    assert ItemNames(items[0], y.b, y.underB, y.b);
    assert FirstDoc(y.Tree(), y.Parser(), y.shared) == Some(map["include" := List(items)]);
  }

  lemma SharedReached(y: Layout)
    requires y.Resolves() && y.Distinct()
    ensures (y.shared, y.b) in Reached(y.Tree(), y.Parser(), y.Twice())
  {
    ReachedIsClosed(y.Tree(), y.Parser(), y.Twice());
    hide ResolveInput, IsRemote, Dir, Reached;
    assert y.Twice().composeFiles[0] == y.main && IsRoot(y.Twice(), (y.main, y.root));
    MainRefers(y);
    hide Refers;
  }

  lemma MainRefers(y: Layout)
    requires y.Resolves() && y.Distinct()
    ensures Refers(y.Tree(), y.Parser(), y.main, y.root, y.shared, y.b)
  {
    hide ResolveInput, IsRemote, Dir;
    var b := Include(["c"], y.b, []);
    assert b.paths[0] == "c";
    assert IncludeNames(b, y.root, y.shared, y.b);
    assert IncludeOf(y.Items()[1]) == Some(b);
    assert ItemNames(y.Items()[1], y.root, y.shared, y.b);
    assert FirstDoc(y.Tree(), y.Parser(), y.main) == Some(map["include" := List(y.Items())]);
  }

  /*** Such a layout ***/

  const TWO_DIRS := Layout(Rooted(["r"]), Rooted(["a"]), Rooted(["b"]), Rooted(["r", "m"]), Rooted(["r", "c"]),
      Rooted(["a", "x"]), Rooted(["b", "x"]))

  lemma JoinPair(a: string, b: string)
    ensures Rooted([a, b]) == "/" + (a + "/" + b) && Rooted([a]) == "/" + a
  {
    assert [a, b][1..] == [b];
    assert Join([b]) == b;
  }

  lemma ResolvesUnder(a: string, b: string)
    requires Plain([a]) && Plain([b]) && '$' !in b && !IsRemote(b)
    ensures ResolveInput(Rooted([a]), b) == Some(Rooted([a, b]))
    ensures Dir(Rooted([a, b])) == Rooted([a])
  {
    assert [a][0] == a && [b][0] == b;
    JoinPair(a, b);
    NamesOfRooted([a, b]);
    assert Rooted([a]) + "/" + b == Rooted([a, b]);
    CleanCanonical(Rooted([a, b]));
    DirOfPair(a, b);
  }

  lemma DirOfPair(a: string, b: string)
    requires Plain([a]) && Plain([b])
    ensures Dir(Rooted([a, b])) == Rooted([a])
  {
    assert [a][0] == a && [b][0] == b;
    JoinPair(a, b);
    var p := Rooted([a, b]);
    assert p == "" + "/" + (a + "/" + b);
    SplitSep("", a + "/" + b);
    SplitSep(a, b);
    SplitWord(b);
    assert Split(p) == ["", a, b];
    hide Reduce;
    assert ["", a, b][..2] == ["", a] && ["", a][1..] == [a];
    var q := Join(["", a]) + "/";
    assert q == "" + "/" + (a + "/" + "");
    SplitSep("", a + "/" + "");
    SplitSep(a, "");
    assert Split(q) == [""] + [a, ""];
    ReduceEmptyHead([a, ""]);
    TrailingSlash(a);
    assert Components(q) == [a];
  }

  lemma TrailingSlash(a: string)
    requires Plain([a])
    ensures Reduce(true, [a, ""]) == [a]
  {
    assert [a, ""][..1] == [a];
    ReduceKeeps([a]);
  }

  lemma ResolvesItself(base: string, names: seq<string>)
    requires Plain(names) && '$' !in Rooted(names)
    ensures ResolveInput(base, Rooted(names)) == Some(Rooted(names)) && !IsRemote(Rooted(names))
  {
    NamesOfRooted(names);
    CanonicalIsLocal(Rooted(names));
  }

  lemma RootedDiffers(a: seq<string>, b: seq<string>)
    requires Plain(a) && Plain(b) && a != b
    ensures Rooted(a) != Rooted(b)
  {
    NamesOfRooted(a);
    NamesOfRooted(b);
  }

  lemma {:induction false} SchemeHasColon(s: string)
    requires Contains(s, "://")
    ensures ':' in s
  {
    if HasPrefix(s, "://") {
      assert s[0] == ':';
    } else {
      SchemeHasColon(s[1..]);
    }
  }

  lemma LocalName(s: string)
    requires ':' !in s && 'g' !in s
    ensures !IsRemote(s)
  {
    if Contains(s, "://") {
      SchemeHasColon(s);
    }
    var user := "git@";
    assert user[0] == 'g';
    assert s != "" && s[0] != user[0] ==> !(user <= s);
  }

  lemma LocalNames()
    ensures !IsRemote("c") && !IsRemote("x") && !IsRemote(".env")
  {
    LocalName("c");
    LocalName("x");
    LocalName(".env");
  }

  lemma TwoDirsResolve()
    ensures TWO_DIRS.Resolves()
  {
    LocalNames();
    hide IsRemote, ResolveInput, Dir, Rooted;
    ResolvesUnder("r", "c");
    ResolvesUnder("a", "x");
    ResolvesUnder("b", "x");
    ResolvesUnder("r", ".env");
    ResolvesUnder("a", ".env");
    ResolvesUnder("b", ".env");
    NoDollar();
    ResolvesItself(TWO_DIRS.root, ["r", "m"]);
    ResolvesItself(TWO_DIRS.root, ["a"]);
    ResolvesItself(TWO_DIRS.root, ["b"]);
    NamesOfRooted(["a"]);
    NamesOfRooted(["b"]);
  }

  lemma NoDollar()
    ensures '$' !in Rooted(["r", "m"]) && '$' !in Rooted(["a"]) && '$' !in Rooted(["b"])
  {
    JoinPair("r", "m");
    JoinPair("a", "a");
    JoinPair("b", "b");
  }

  lemma TwoDirsEnv(dir: string)
    requires Plain([dir])
    ensures ResolveInput(Rooted([dir]), ".env") == Some(Rooted([dir, ".env"]))
        && Rooted([dir, ".env"]) != Rooted(["b", "x"])
  {
    LocalNames();
    hide IsRemote, ResolveInput, Dir, Rooted;
    ResolvesUnder(dir, ".env");
    assert [dir][0] == dir && [dir, ".env"][1] != ["b", "x"][1];
    RootedDiffers([dir, ".env"], ["b", "x"]);
  }

  lemma TwoDirsDiffer()
    requires TWO_DIRS.Resolves()
    ensures TWO_DIRS.Distinct()
  {
    hide IsRemote, ResolveInput, Dir, Rooted;
    TwoDirsEnv("r");
    TwoDirsEnv("a");
    TwoDirsEnv("b");
    RootedDiffers(["r", "m"], ["r", "c"]);
    RootedDiffers(["r", "m"], ["a", "x"]);
    RootedDiffers(["r", "c"], ["a", "x"]);
    RootedDiffers(["r", "m"], ["b", "x"]);
    RootedDiffers(["r", "c"], ["b", "x"]);
    RootedDiffers(["a", "x"], ["b", "x"]);
  }

  /** There is such a layout: "/r/m" includes "c" under "/a" and "/b". */
  lemma IncludedTwiceIsMissed()
    ensures TWO_DIRS.Resolves() && TWO_DIRS.Distinct()
    ensures var y := TWO_DIRS;
      && InputsOf(y.Tree(), y.Parser(), y.Twice()).complete
      && (y.shared, y.b) in Reached(y.Tree(), y.Parser(), y.Twice())
      && Refers(y.Tree(), y.Parser(), y.shared, y.b, y.underB, y.b)
      && y.underB !in InputsOf(y.Tree(), y.Parser(), y.Twice()).paths
  {
    TwoDirsResolve();
    TwoDirsDiffer();
    hide Layout.Resolves, Layout.Distinct, InputsOf, Reached, Refers, Layout.Tree, Layout.Parser, Layout.Twice;
    TwiceMisses(TWO_DIRS);
  }
}
