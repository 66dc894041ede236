/** ProjectInputs: the walked files of a project together with the paths its loaded form declares. */
module ProjectInputs {
  import opened Wrappers
  import opened Paths
  import opened Inputs
  import opened Coverage
  import opened InputWalking
  import Ordering

  datatype Build = Build(context: string, dockerfile: string, additional: seq<string>)

  datatype Service = Service(envFiles: seq<string>, extendsFile: Option<string>, build: Option<Build>)

  /** A loaded project, as far as its inputs go. */
  datatype Project = Project(workingDir: string, composeFiles: seq<string>, services: map<string, Service>,
      configs: seq<string>, secrets: seq<string>)

  /*** Declared paths ***/

  /** A path that a loaded project declares; Hidden is one whose base directory cannot be told. */
  datatype Claim = Ref(base: string, path: string) | Hidden
  {
    predicate Nothing() {
      Ref? && (path == "" || IsRemote(path))
    }

    function Target(): Option<string> {
      if Hidden? then None else ResolveInput(base, path)
    }

    /** It declares an input that cannot be named. */
    predicate Gap() {
      !Nothing() && Target().None?
    }
  }

  function Refs(base: string, paths: seq<string>): (r: seq<Claim>)
    ensures |r| == |paths| && forall i :: 0 <= i < |r| ==> r[i] == Ref(base, paths[i])
  {
    seq(|paths|, i requires 0 <= i < |paths| => Ref(base, paths[i]))
  }

  function BuildContextDir(workingDir: string, context: string): Option<string> {
    if context != "" then ResolveInput(workingDir, context)
    else if workingDir != "" then Some(workingDir) else None
  }

  function DockerfileClaims(dir: string, b: Build): seq<Claim> {
    if IsRemote(b.context) then []
    else
      var context := BuildContextDir(dir, b.context);
      if context.Some? then [Ref(context.value, b.dockerfile)]
      else if b.dockerfile != "" then [Hidden] else []
  }

  function BuildClaims(dir: string, b: Build): seq<Claim> {
    [Ref(dir, b.context)] + DockerfileClaims(dir, b) + Refs(dir, b.additional)
  }

  function ServiceClaims(dir: string, s: Service): seq<Claim> {
    Refs(dir, s.envFiles)
    + (if s.extendsFile.Some? then [Ref(dir, s.extendsFile.value)] else [])
    + (if s.build.Some? then BuildClaims(dir, s.build.value) else [])
  }

  function ServicesClaims(dir: string, services: map<string, Service>, names: seq<string>): seq<Claim>
    requires forall n :: n in names ==> n in services
  {
    if names == [] then []
    else ServicesClaims(dir, services, names[..|names| - 1]) + ServiceClaims(dir, services[names[|names| - 1]])
  }

  function Claims(p: Project): seq<Claim> {
    ServicesClaims(p.workingDir, p.services, Ordering.Sorted(p.services.Keys))
    + Refs(p.workingDir, p.configs) + Refs(p.workingDir, p.secrets)
  }

  datatype Found = Found(paths: seq<string>, complete: bool)
  {
    /** The closure `add` of declaredPaths. */
    function Add(c: Claim): Found {
      if c.Nothing() then this
      else if c.Target().None? then this.(complete := false)
      else this.(paths := paths + [c.Target().value])
    }
  }

  function Collect(start: Found, claims: seq<Claim>): Found {
    if claims == [] then start else Collect(start, claims[..|claims| - 1]).Add(claims[|claims| - 1])
  }

  function ImplicitEnv(dir: string): Found {
    var env := ResolveInput(dir, ".env");
    Found(if env.Some? then [env.value] else [], true)
  }

  function Declared(p: Project): Found {
    Collect(ImplicitEnv(p.workingDir), Claims(p))
  }

  /** Collecting is complete exactly when no claim is a gap, and finds exactly the targets. */
  lemma {:induction false} CollectMeans(start: Found, claims: seq<Claim>)
    ensures var f := Collect(start, claims);
      && (f.complete <==> start.complete && forall c :: c in claims ==> !c.Gap())
      && (forall p :: p in f.paths <==> p in start.paths || exists c :: c in claims && c.Target() == Some(p))
  {
    if claims != [] {
      var n := |claims| - 1;
      var last := claims[n];
      CollectMeans(start, claims[..n]);
      assert claims == claims[..n] + [last];
      assert (forall c :: c in claims ==> !c.Gap()) <==> !last.Gap() && forall c :: c in claims[..n] ==> !c.Gap() by {
        assert forall c :: c in claims <==> c in claims[..n] || c == last;
      }
      assert last.Nothing() ==> last.Target().None?;
      forall p ensures p in Collect(start, claims).paths <==>
          p in start.paths || exists c :: c in claims && c.Target() == Some(p) {
        if c :| c in claims && c.Target() == Some(p) {
          assert c in claims[..n] || c == last;
        }
      }
    }
  }

  lemma CollectOne(start: Found, done: seq<Claim>, c: Claim)
    ensures Collect(start, done + [c]) == Collect(start, done).Add(c)
  {
    assert (done + [c])[..|done|] == done;
  }

  lemma CollectNone(start: Found)
    ensures Collect(start, []) == start
  {
  }

  method AddAll(start: Found, base: string, paths: seq<string>, ghost done: seq<Claim>, ghost first: Found)
      returns (f: Found)
    requires start == Collect(first, done)
    ensures f == Collect(first, done + Refs(base, paths))
  {
    hide Collect, Found.Add;
    f := start;
    assert done + Refs(base, []) == done;
    for i := 0 to |paths|
      invariant f == Collect(first, done + Refs(base, paths[..i]))
    {
      CollectOne(first, done + Refs(base, paths[..i]), Ref(base, paths[i]));
      assert done + Refs(base, paths[..i + 1]) == done + Refs(base, paths[..i]) + [Ref(base, paths[i])];
      f := f.Add(Ref(base, paths[i]));
    }
    assert paths[..|paths|] == paths;
  }

  method AddService(start: Found, dir: string, s: Service, ghost done: seq<Claim>, ghost first: Found)
      returns (f: Found)
    requires start == Collect(first, done)
    ensures f == Collect(first, done + ServiceClaims(dir, s))
  {
    hide Collect, Found.Add, BuildClaims;
    f := AddAll(start, dir, s.envFiles, done, first);
    ghost var told := done + Refs(dir, s.envFiles);
    if s.extendsFile.Some? {
      CollectOne(first, told, Ref(dir, s.extendsFile.value));
      told := told + [Ref(dir, s.extendsFile.value)];
      f := f.Add(Ref(dir, s.extendsFile.value));
    }
    if s.build.Some? {
      f := AddBuild(f, dir, s.build.value, told, first);
      told := told + BuildClaims(dir, s.build.value);
    }
    assert told == done + ServiceClaims(dir, s);
  }

  method AddBuild(start: Found, dir: string, b: Build, ghost done: seq<Claim>, ghost first: Found) returns (f: Found)
    requires start == Collect(first, done)
    ensures f == Collect(first, done + BuildClaims(dir, b))
  {
    CollectOne(first, done, Ref(dir, b.context));
    f := start.Add(Ref(dir, b.context));
    ghost var told := done + [Ref(dir, b.context)];
    f := AddDockerfile(f, dir, b, told, first);
    hide Collect, Found.Add, DockerfileClaims;
    told := told + DockerfileClaims(dir, b);
    f := AddAll(f, dir, b.additional, told, first);
    assert told + Refs(dir, b.additional) == done + BuildClaims(dir, b);
  }

  method AddDockerfile(start: Found, dir: string, b: Build, ghost done: seq<Claim>, ghost first: Found)
      returns (f: Found)
    requires start == Collect(first, done)
    ensures f == Collect(first, done + DockerfileClaims(dir, b))
  {
    hide Collect;
    f := start;
    assert done + [] == done;
    if IsRemote(b.context) { return; }
    var context := BuildContextDir(dir, b.context);
    if context.Some? {
      CollectOne(first, done, Ref(context.value, b.dockerfile));
      f := f.Add(Ref(context.value, b.dockerfile));
    } else if b.dockerfile != "" {
      CollectOne(first, done, Hidden);
      f := f.(complete := false);
    }
  }

  method DeclaredPaths(p: Project) returns (f: Found)
    ensures f == Declared(p)
  {
    hide Collect, ServiceClaims, ImplicitEnv;
    var dir := p.workingDir;
    f := ImplicitEnv(dir);
    ghost var first := f;
    CollectNone(first);
    var names := Ordering.Sorted(p.services.Keys);
    for i := 0 to |names|
      invariant f == Collect(first, ServicesClaims(dir, p.services, names[..i]))
    {
      assert names[..i + 1][..i] == names[..i];
      f := AddService(f, dir, p.services[names[i]], ServicesClaims(dir, p.services, names[..i]), first);
    }
    assert names[..|names|] == names;
    ghost var told := ServicesClaims(dir, p.services, names);
    f := AddAll(f, dir, p.configs, told, first);
    f := AddAll(f, dir, p.secrets, told + Refs(dir, p.configs), first);
  }

  /*** All inputs ***/

  const EMPTY := Walk([], {}, true)

  ghost const EVERYWHERE: Places := iset p: (string, string) | true

  function Walked(tree: Tree, parse: Parser, p: Project): Walk {
    VisitAll(tree, parse, EMPTY, p.composeFiles, p.workingDir, p.workingDir, 0)
  }

  function InputsOf(tree: Tree, parse: Parser, p: Project): Found {
    var w, d := Walked(tree, parse, p), Declared(p);
    Found(Ordering.SortedCompact(w.paths + d.paths), w.complete && d.complete)
  }

  method Compute(tree: Tree, parse: Parser, p: Project) returns (f: Found)
    ensures f == InputsOf(tree, parse, p)
  {
    var w := new InputWalker();
    for i := 0 to |p.composeFiles|
      invariant w.Here() == VisitAll(tree, parse, EMPTY, p.composeFiles[..i], p.workingDir, p.workingDir, 0)
    {
      assert p.composeFiles[..i + 1][..i] == p.composeFiles[..i];
      w.Visit(tree, parse, p.composeFiles[i], p.workingDir, p.workingDir, 0);
    }
    assert p.composeFiles[..|p.composeFiles|] == p.composeFiles;
    var declared := DeclaredPaths(p);
    f := Found(Ordering.SortedCompact(w.paths + declared.paths), w.complete && declared.complete);
  }

  /** Trees that agree on a project's inputs give it the same inputs. */
  lemma InputsFrame(a: Tree, b: Tree, parse: Parser, p: Project)
    requires Agree(a, b, InputsOf(a, parse, p).paths)
    ensures InputsOf(b, parse, p) == InputsOf(a, parse, p)
  {
    var w := Walked(a, parse, p);
    assert forall q :: q in w.paths ==> q in w.paths + Declared(p).paths;
    VisitAllFrame(a, b, parse, EMPTY, p.composeFiles, p.workingDir, p.workingDir, 0);
  }

  /** Every input is a canonical absolute path, so comparing strings compares files. */
  lemma InputsCanonical(tree: Tree, parse: Parser, p: Project)
    requires BaseOk(p.workingDir)
    ensures forall q :: q in InputsOf(tree, parse, p).paths ==> Canonical(q)
  {
    var start := ImplicitEnv(p.workingDir);
    VisitAllCovers(tree, parse, EVERYWHERE, EMPTY, p.composeFiles, p.workingDir, p.workingDir, 0);
    CollectMeans(start, Claims(p));
    ResolvedCanonical(p.workingDir, ".env");
    forall c | c in Claims(p) && c.Target().Some? ensures Canonical(c.Target().value) {
      ClaimsAbsolute(p, c);
      ResolvedCanonical(c.base, c.path);
    }
  }

  lemma {:induction false} ServicesClaimsAbsolute(dir: string, services: map<string, Service>, names: seq<string>,
      c: Claim)
    requires BaseOk(dir) && (forall n :: n in names ==> n in services) && c in ServicesClaims(dir, services, names)
        && c.Ref?
    ensures BaseOk(c.base)
  {
    hide ServiceClaims;
    var n := |names| - 1;
    if c in ServicesClaims(dir, services, names[..n]) {
      ServicesClaimsAbsolute(dir, services, names[..n], c);
    } else {
      ServiceClaimsAbsolute(dir, services[names[n]], c);
    }
  }

  lemma ServiceClaimsAbsolute(dir: string, s: Service, c: Claim)
    requires BaseOk(dir) && c in ServiceClaims(dir, s) && c.Ref?
    ensures BaseOk(c.base)
  {
    if s.build.Some? && c in BuildClaims(dir, s.build.value) {
      ResolvedCanonical(dir, s.build.value.context);
      hide ResolveInput, IsRemote, Canonical;
      var b := s.build.value;
      assert c == Ref(dir, b.context) || c in DockerfileClaims(dir, b) || c in Refs(dir, b.additional);
    }
  }

  lemma ClaimsAbsolute(p: Project, c: Claim)
    requires BaseOk(p.workingDir) && c in Claims(p) && c.Ref?
    ensures BaseOk(c.base)
  {
    var names := Ordering.Sorted(p.services.Keys);
    if c in ServicesClaims(p.workingDir, p.services, names) {
      ServicesClaimsAbsolute(p.workingDir, p.services, names, c);
    }
  }

  /** A complete input set is closed: it holds the compose files, every file the walk entered was readable and all its
      references are inputs, and so is every path the loaded project declares. */
  lemma CompleteIsClosed(tree: Tree, parse: Parser, p: Project)
    requires BaseOk(p.workingDir) && InputsOf(tree, parse, p).complete
    ensures var w, paths := Walked(tree, parse, p), InputsOf(tree, parse, p).paths;
      && (forall i :: 0 <= i < |p.composeFiles| ==> RefCovered(w, p.workingDir, p.composeFiles[i]))
      && (forall q :: q in w.seen ==> Covered(tree, parse, EVERYWHERE, w, q))
      && (forall q :: q in w.paths ==> q in paths)
      && (forall c :: c in Claims(p) ==> c.Nothing() || Known(paths, c.Target()))
  {
    var w, d := Walked(tree, parse, p), Declared(p);
    VisitAllCovers(tree, parse, EVERYWHERE, EMPTY, p.composeFiles, p.workingDir, p.workingDir, 0);
    CollectMeans(ImplicitEnv(p.workingDir), Claims(p));
    hide Covered, RefCovered;
    forall c | c in Claims(p) && !c.Nothing() ensures Known(InputsOf(tree, parse, p).paths, c.Target()) {
      assert !c.Gap();
      assert c.Target().value in d.paths;
    }
  }

  /*** What a project declares, field by field ***/

  predicate ServiceDeclares(dir: string, s: Service, base: string, path: string) {
    || (base == dir && path in s.envFiles)
    || (base == dir && s.extendsFile == Some(path))
    || (s.build.Some? && base == dir && (path == s.build.value.context || path in s.build.value.additional))
    || (s.build.Some? && path == s.build.value.dockerfile && !IsRemote(s.build.value.context) &&
        Some(base) == BuildContextDir(dir, s.build.value.context))
  }

  /** The project declares this path against this directory: an environment or extended file, a build context or an
      additional one, a dockerfile against its context, a config or a secret. */
  predicate Declares(p: Project, base: string, path: string) {
    || (exists name :: name in p.services && ServiceDeclares(p.workingDir, p.services[name], base, path))
    || (base == p.workingDir && (path in p.configs || path in p.secrets))
  }

  lemma RefsHold(base: string, paths: seq<string>, path: string)
    ensures Ref(base, path) in Refs(base, paths) <==> path in paths
  {
    if path in paths {
      var i :| 0 <= i < |paths| && paths[i] == path;
      assert Refs(base, paths)[i] == Ref(base, path);
    }
  }

  lemma ServiceClaimsHold(dir: string, s: Service, base: string, path: string)
    requires ServiceDeclares(dir, s, base, path)
    ensures Ref(base, path) in ServiceClaims(dir, s)
  {
    RefsHold(base, s.envFiles, path);
    if s.build.Some? {
      RefsHold(base, s.build.value.additional, path);
    }
  }

  lemma {:induction false} ServicesClaimsHold(dir: string, services: map<string, Service>, names: seq<string>,
      name: string, c: Claim)
    requires (forall n :: n in names ==> n in services) && name in names && c in ServiceClaims(dir, services[name])
    ensures c in ServicesClaims(dir, services, names)
  {
    var last := |names| - 1;
    if names[last] != name {
      assert name in names[..last];
      ServicesClaimsHold(dir, services, names[..last], name, c);
    }
  }

  lemma DeclaredIsClaimed(p: Project, base: string, path: string)
    requires Declares(p, base, path)
    ensures Ref(base, path) in Claims(p)
  {
    var names := Ordering.Sorted(p.services.Keys);
    RefsHold(base, p.configs, path);
    RefsHold(base, p.secrets, path);
    if name :| name in p.services && ServiceDeclares(p.workingDir, p.services[name], base, path) {
      ServiceClaimsHold(p.workingDir, p.services[name], base, path);
      ServicesClaimsHold(p.workingDir, p.services, names, name, Ref(base, path));
    }
  }

  /** Whatever a project declares, unless it is empty or remote, is an input, or the inputs are not complete. */
  lemma DeclaredIsInput(tree: Tree, parse: Parser, p: Project, base: string, path: string)
    requires Declares(p, base, path) && path != "" && !IsRemote(path)
    ensures var f := InputsOf(tree, parse, p);
      if ResolveInput(base, path).Some? then ResolveInput(base, path).value in f.paths else !f.complete
  {
    DeclaredIsClaimed(p, base, path);
    CollectMeans(ImplicitEnv(p.workingDir), Claims(p));
    hide Claims, Collect, ResolveInput, IsRemote;
    var c := Ref(base, path);
    assert c.Target() == ResolveInput(base, path) && (c.Target().None? ==> c.Gap());
  }

  predicate LosesDockerfile(p: Project, s: Service) {
    && s.build.Some? && s.build.value.dockerfile != "" && !IsRemote(s.build.value.context)
    && BuildContextDir(p.workingDir, s.build.value.context).None?
  }

  /** A dockerfile whose build context is a path that cannot be told leaves the inputs incomplete, and the environment
      file of the working directory is always one of them. */
  lemma UndeclaredContexts(tree: Tree, parse: Parser, p: Project)
    ensures ResolveInput(p.workingDir, ".env").Some? ==>
      ResolveInput(p.workingDir, ".env").value in InputsOf(tree, parse, p).paths
    ensures forall name :: name in p.services && LosesDockerfile(p, p.services[name]) ==>
        !InputsOf(tree, parse, p).complete
  {
    CollectMeans(ImplicitEnv(p.workingDir), Claims(p));
    var names := Ordering.Sorted(p.services.Keys);
    forall name | name in p.services && LosesDockerfile(p, p.services[name])
        ensures !InputsOf(tree, parse, p).complete {
      assert Hidden in DockerfileClaims(p.workingDir, p.services[name].build.value);
      assert Hidden in ServiceClaims(p.workingDir, p.services[name]);
      ServicesClaimsHold(p.workingDir, p.services, names, name, Hidden);
      assert Hidden.Gap();
    }
  }
}
