/** The input walker of internal/compose/inputs.go: which files of the checkout a Compose project is made of. */
module Inputs {
  import opened Wrappers
  import opened Paths
  import Ordering

  const MAX_INCLUDE_DEPTH := 16

  /** A Go string or byte slice; a char stands for one byte. */
  type Bytes = string

  datatype Node = Null | Str(text: string) | List(items: seq<Node>) | Mapping(fields: Doc) | Scalar(literal: string)

  type Doc = map<string, Node>

  function Field(d: Doc, key: string): Node {
    if key in d then d[key] else Null
  }

  /** What a path holds; None is a path that cannot be read. */
  type Tree = string -> Option<Bytes>

  /** yamlMappings; None is a file that does not parse. */
  type Parser = Bytes -> Option<seq<Doc>>

  /** The first document of a file, when the file can be read and parsed and has one. */
  function FirstDoc(tree: Tree, parse: Parser, p: string): Option<Doc> {
    if tree(p).None? then None
    else
      var docs := parse(tree(p).value);
      if docs.None? || docs.value == [] then None else Some(docs.value[0])
  }

  /*** References ***/

  predicate Contains(s: string, sub: string) {
    HasPrefix(s, sub) || (s != "" && Contains(s[1..], sub))
  }

  predicate IsRemote(p: string) {
    Contains(p, "://") || HasPrefix(p, "git@")
  }

  lemma {:induction false} ContainsMeans(s: string, sub: string)
    ensures Contains(s, sub) <==> exists i, j :: 0 <= i <= j <= |s| && s[i..j] == sub
  {
    if HasPrefix(s, sub) {
      assert s[0..|sub|] == sub;
    } else if s != "" {
      ContainsMeans(s[1..], sub);
      forall i, j | 0 <= i <= j <= |s[1..]| ensures s[1..][i..j] == s[i + 1..j + 1] {}
      if i, j :| 0 <= i <= j <= |s| && s[i..j] == sub {
        assert s[0..j] == s[..j];
        assert s[1..][i - 1..j - 1] == sub;
      }
      if i, j :| 0 <= i <= j <= |s[1..]| && s[1..][i..j] == sub {
        assert s[i + 1..j + 1] == sub;
      }
    } else {
      forall i, j | 0 <= i <= j <= |s| ensures s[i..j] == "" {}
    }
  }

  function ResolveInput(base: string, p: string): (r: Option<string>)
    ensures r.Some? ==> !IsRemote(p)
  {
    if p == "" || '$' in p || IsRemote(p) then None
    else if IsAbs(p) then Some(Clean(p))
    else if base == "" then None
    else Some(Clean(JoinPath(base, p)))
  }

  lemma ResolvedCanonical(base: string, p: string)
    requires base == "" || IsAbs(base)
    ensures ResolveInput(base, p).Some? ==> Canonical(ResolveInput(base, p).value)
  {
    if ResolveInput(base, p).Some? {
      if IsAbs(p) {
        CleanCanonical(p);
      } else {
        JoinCanonical(base, p);
        CleanCanonical(JoinPath(base, p));
      }
    }
  }

  function OptionalString(n: Node): Option<string> {
    match n
    case Null => Some("")
    case Str(s) => Some(s)
    case _ => None
  }

  function StringList(n: Node): Option<seq<string>> {
    match n
    case Null => Some([])
    case Str(s) => Some([s])
    case List(items) =>
      if exists i :: 0 <= i < |items| && !items[i].Str? then None
      else Some(seq(|items|, i requires 0 <= i < |items| => assert items[i].Str?; items[i].text))
    case _ => None
  }

  /** An include entry as the walker reads it. */
  datatype Include = Include(paths: seq<string>, projectDir: string, envFiles: seq<string>)

  function IncludeOf(n: Node): Option<Include> {
    match n
    case Str(s) => Some(Include([s], "", []))
    case Mapping(e) =>
      var paths, dir, env := StringList(Field(e, "path")), OptionalString(Field(e, "project_directory")),
          StringList(Field(e, "env_file"));
      if paths.None? || dir.None? || env.None? then None else Some(Include(paths.value, dir.value, env.value))
    case _ => None
  }

  /** The file a service extends from, empty when there is none to follow; None when it cannot be told. */
  function ExtendsOf(service: Node): Option<string> {
    if !service.Mapping? || !Field(service.fields, "extends").Mapping? then Some("")
    else OptionalString(Field(Field(service.fields, "extends").fields, "file"))
  }

  /** The project directory an include gives its files: None when a declared one does not resolve. */
  function IncludeDir(base: string, e: Include): Option<string>
    requires e.paths != []
  {
    if e.projectDir != "" then ResolveInput(base, e.projectDir)
    else
      var first := ResolveInput(base, e.paths[0]);
      Some(if first.Some? then Dir(first.value) else "")
  }

  /*** The walk ***/

  /** inputWalker */
  datatype Walk = Walk(paths: seq<string>, seen: set<string>, complete: bool)
  {
    function Gap(): Walk {
      this.(complete := false)
    }

    function Add(p: Option<string>): Walk {
      if p.Some? then this.(paths := paths + [p.value]) else Gap()
    }

    function Enter(abs: string): Walk {
      Walk(paths + [abs], seen + {abs}, complete)
    }
  }

  predicate Extends(w: Walk, r: Walk) {
    w.paths <= r.paths && w.seen <= r.seen && (r.complete ==> w.complete)
  }

  function Visit(tree: Tree, parse: Parser, w: Walk, ref: string, refBase: string, dir: string, depth: nat): (r: Walk)
    ensures Extends(w, r)
    decreases MAX_INCLUDE_DEPTH - depth, 3, 0
  {
    if IsRemote(ref) then w
    else
      var abs := ResolveInput(refBase, ref);
      if abs.None? then w.Gap()
      else if abs.value in w.seen then w
      else
        var w1 := w.Enter(abs.value);
        if depth >= MAX_INCLUDE_DEPTH then w1.Gap()
        else
          var doc := FirstDoc(tree, parse, abs.value);
          if doc.None? then w1.Gap()
          else
            var w2 := WalkIncludes(tree, parse, w1, Field(doc.value, "include"), dir, depth);
            WalkExtends(tree, parse, w2, Field(doc.value, "services"), dir, depth)
  }

  function WalkIncludes(tree: Tree, parse: Parser, w: Walk, node: Node, base: string, depth: nat): (r: Walk)
    requires depth < MAX_INCLUDE_DEPTH
    ensures Extends(w, r)
    decreases MAX_INCLUDE_DEPTH - depth, 2, 1
  {
    match node
    case Null => w
    case List(items) => IncludeAll(tree, parse, w, items, base, depth)
    case _ => w.Gap()
  }

  function IncludeAll(tree: Tree, parse: Parser, w: Walk, items: seq<Node>, base: string, depth: nat): (r: Walk)
    requires depth < MAX_INCLUDE_DEPTH
    ensures Extends(w, r)
    decreases MAX_INCLUDE_DEPTH - depth, 2, 0, |items|
  {
    if items == [] then w
    else
      var w1 := IncludeAll(tree, parse, w, items[..|items| - 1], base, depth);
      var e := IncludeOf(items[|items| - 1]);
      if e.None? then w1.Gap() else WalkInclude(tree, parse, w1, e.value, base, depth)
  }

  function WalkInclude(tree: Tree, parse: Parser, w: Walk, e: Include, base: string, depth: nat): (r: Walk)
    requires depth < MAX_INCLUDE_DEPTH
    ensures Extends(w, r)
    decreases MAX_INCLUDE_DEPTH - depth, 1
  {
    if e.paths == [] then w.Gap()
    else
      var dir := IncludeDir(base, e);
      if dir.None? then w.Gap()
      else
        var w1 := AddEnvFiles(w, e.envFiles, base);
        VisitAll(tree, parse, AddDefaultEnv(w1, e, dir.value), e.paths, base, dir.value, depth + 1)
  }

  function AddEnvFiles(w: Walk, files: seq<string>, base: string): (r: Walk)
    ensures Extends(w, r)
  {
    if files == [] then w
    else AddEnvFiles(w, files[..|files| - 1], base).Add(ResolveInput(base, files[|files| - 1]))
  }

  function AddDefaultEnv(w: Walk, e: Include, dir: string): (r: Walk)
    ensures Extends(w, r)
  {
    if e.envFiles == [] && dir != "" && ResolveInput(dir, ".env").Some? then w.Add(ResolveInput(dir, ".env")) else w
  }

  function VisitAll(tree: Tree, parse: Parser, w: Walk, refs: seq<string>, refBase: string, dir: string,
      depth: nat): (r: Walk)
    ensures Extends(w, r)
    decreases MAX_INCLUDE_DEPTH - depth, 4, |refs|
  {
    if refs == [] then w
    else
      var w1 := VisitAll(tree, parse, w, refs[..|refs| - 1], refBase, dir, depth);
      Visit(tree, parse, w1, refs[|refs| - 1], refBase, dir, depth)
  }

  function WalkExtends(tree: Tree, parse: Parser, w: Walk, node: Node, base: string, depth: nat): (r: Walk)
    requires depth < MAX_INCLUDE_DEPTH
    ensures Extends(w, r)
    decreases MAX_INCLUDE_DEPTH - depth, 2, 1
  {
    match node
    case Null => w
    case Mapping(services) => ExtendAll(tree, parse, w, services, Ordering.Sorted(services.Keys), base, depth)
    case _ => w.Gap()
  }

  function ExtendAll(tree: Tree, parse: Parser, w: Walk, services: Doc, names: seq<string>, base: string,
      depth: nat): (r: Walk)
    requires depth < MAX_INCLUDE_DEPTH
    ensures Extends(w, r)
    decreases MAX_INCLUDE_DEPTH - depth, 2, 0, |names|
  {
    if names == [] then w
    else
      var w1 := ExtendAll(tree, parse, w, services, names[..|names| - 1], base, depth);
      ExtendOne(tree, parse, w1, Field(services, names[|names| - 1]), base, depth)
  }

  function ExtendOne(tree: Tree, parse: Parser, w: Walk, service: Node, base: string, depth: nat): (r: Walk)
    requires depth < MAX_INCLUDE_DEPTH
    ensures Extends(w, r)
    decreases MAX_INCLUDE_DEPTH - depth, 1
  {
    var file := ExtendsOf(service);
    if file.None? then w.Gap()
    else if file.value == "" then w
    else
      var abs := ResolveInput(base, file.value);
      if abs.None? then w.Gap()
      else Visit(tree, parse, w, abs.value, base, Dir(abs.value), depth + 1)
  }

  /*** The walk reads nothing but its inputs ***/

  predicate Agree(a: Tree, b: Tree, paths: seq<string>) {
    forall p :: p in paths ==> a(p) == b(p)
  }

  /** If two trees agree on the paths a walk over one of them collects, the walk over the other is the same. */
  lemma {:induction false} VisitFrame(a: Tree, b: Tree, parse: Parser, w: Walk, ref: string, refBase: string,
      dir: string, depth: nat)
    requires Agree(a, b, Visit(a, parse, w, ref, refBase, dir, depth).paths)
    ensures Visit(b, parse, w, ref, refBase, dir, depth) == Visit(a, parse, w, ref, refBase, dir, depth)
    decreases MAX_INCLUDE_DEPTH - depth, 3, 0
  {
    var abs := ResolveInput(refBase, ref);
    if abs.Some? && abs.value !in w.seen && depth < MAX_INCLUDE_DEPTH {
      var w1 := w.Enter(abs.value);
      assert w1.paths <= Visit(a, parse, w, ref, refBase, dir, depth).paths;
      assert abs.value == w1.paths[|w.paths|];
      var doc := FirstDoc(a, parse, abs.value);
      if doc.Some? {
        var includes, services := Field(doc.value, "include"), Field(doc.value, "services");
        var w2 := WalkIncludes(a, parse, w1, includes, dir, depth);
        ExtendsFrame(a, b, parse, w2, services, dir, depth);
        IncludesFrame(a, b, parse, w1, includes, dir, depth);
      }
    }
  }

  lemma {:induction false} IncludesFrame(a: Tree, b: Tree, parse: Parser, w: Walk, node: Node, base: string, depth: nat)
    requires depth < MAX_INCLUDE_DEPTH && Agree(a, b, WalkIncludes(a, parse, w, node, base, depth).paths)
    ensures WalkIncludes(b, parse, w, node, base, depth) == WalkIncludes(a, parse, w, node, base, depth)
    decreases MAX_INCLUDE_DEPTH - depth, 2, 1
  {
    if node.List? {
      IncludeAllFrame(a, b, parse, w, node.items, base, depth);
    }
  }

  lemma {:induction false} IncludeAllFrame(a: Tree, b: Tree, parse: Parser, w: Walk, items: seq<Node>, base: string,
      depth: nat)
    requires depth < MAX_INCLUDE_DEPTH && Agree(a, b, IncludeAll(a, parse, w, items, base, depth).paths)
    ensures IncludeAll(b, parse, w, items, base, depth) == IncludeAll(a, parse, w, items, base, depth)
    decreases MAX_INCLUDE_DEPTH - depth, 2, 0, |items|
  {
    if items != [] {
      var w1 := IncludeAll(a, parse, w, items[..|items| - 1], base, depth);
      var e := IncludeOf(items[|items| - 1]);
      if e.Some? {
        IncludeFrame(a, b, parse, w1, e.value, base, depth);
      }
      IncludeAllFrame(a, b, parse, w, items[..|items| - 1], base, depth);
    }
  }

  lemma {:induction false} IncludeFrame(a: Tree, b: Tree, parse: Parser, w: Walk, e: Include, base: string, depth: nat)
    requires depth < MAX_INCLUDE_DEPTH && Agree(a, b, WalkInclude(a, parse, w, e, base, depth).paths)
    ensures WalkInclude(b, parse, w, e, base, depth) == WalkInclude(a, parse, w, e, base, depth)
    decreases MAX_INCLUDE_DEPTH - depth, 1
  {
    if e.paths != [] && IncludeDir(base, e).Some? {
      var dir := IncludeDir(base, e).value;
      var w2 := AddDefaultEnv(AddEnvFiles(w, e.envFiles, base), e, dir);
      VisitAllFrame(a, b, parse, w2, e.paths, base, dir, depth + 1);
    }
  }

  lemma {:induction false} VisitAllFrame(a: Tree, b: Tree, parse: Parser, w: Walk, refs: seq<string>, refBase: string,
      dir: string, depth: nat)
    requires Agree(a, b, VisitAll(a, parse, w, refs, refBase, dir, depth).paths)
    ensures VisitAll(b, parse, w, refs, refBase, dir, depth) == VisitAll(a, parse, w, refs, refBase, dir, depth)
    decreases MAX_INCLUDE_DEPTH - depth, 4, |refs|
  {
    if refs != [] {
      var w1 := VisitAll(a, parse, w, refs[..|refs| - 1], refBase, dir, depth);
      VisitFrame(a, b, parse, w1, refs[|refs| - 1], refBase, dir, depth);
      VisitAllFrame(a, b, parse, w, refs[..|refs| - 1], refBase, dir, depth);
    }
  }

  lemma {:induction false} ExtendsFrame(a: Tree, b: Tree, parse: Parser, w: Walk, node: Node, base: string, depth: nat)
    requires depth < MAX_INCLUDE_DEPTH && Agree(a, b, WalkExtends(a, parse, w, node, base, depth).paths)
    ensures WalkExtends(b, parse, w, node, base, depth) == WalkExtends(a, parse, w, node, base, depth)
    decreases MAX_INCLUDE_DEPTH - depth, 2, 1
  {
    if node.Mapping? {
      ExtendAllFrame(a, b, parse, w, node.fields, Ordering.Sorted(node.fields.Keys), base, depth);
    }
  }

  lemma {:induction false} ExtendAllFrame(a: Tree, b: Tree, parse: Parser, w: Walk, services: Doc, names: seq<string>,
      base: string, depth: nat)
    requires depth < MAX_INCLUDE_DEPTH && Agree(a, b, ExtendAll(a, parse, w, services, names, base, depth).paths)
    ensures ExtendAll(b, parse, w, services, names, base, depth) == ExtendAll(a, parse, w, services, names, base, depth)
    decreases MAX_INCLUDE_DEPTH - depth, 2, 0, |names|
  {
    if names != [] {
      var w1 := ExtendAll(a, parse, w, services, names[..|names| - 1], base, depth);
      ExtendOneFrame(a, b, parse, w1, Field(services, names[|names| - 1]), base, depth);
      ExtendAllFrame(a, b, parse, w, services, names[..|names| - 1], base, depth);
    }
  }

  lemma {:induction false} ExtendOneFrame(a: Tree, b: Tree, parse: Parser, w: Walk, service: Node, base: string,
      depth: nat)
    requires depth < MAX_INCLUDE_DEPTH && Agree(a, b, ExtendOne(a, parse, w, service, base, depth).paths)
    ensures ExtendOne(b, parse, w, service, base, depth) == ExtendOne(a, parse, w, service, base, depth)
    decreases MAX_INCLUDE_DEPTH - depth, 1
  {
    var file := ExtendsOf(service);
    if file.Some? && file.value != "" {
      var abs := ResolveInput(base, file.value);
      if abs.Some? {
        VisitFrame(a, b, parse, w, abs.value, base, Dir(abs.value), depth + 1);
      }
    }
  }
}
