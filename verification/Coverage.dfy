/** What a complete walk means: every file it entered could be read, and every reference found there is an input. */
module Coverage {
  import opened Wrappers
  import opened Paths
  import opened Inputs
  import Ordering

  /*** Said of the documents, without the walk ***/

  predicate BaseOk(dir: string) {
    dir == "" || IsAbs(dir)
  }

  /** The walk has entered the file a reference names, unless it is remote. */
  predicate RefCovered(w: Walk, base: string, ref: string) {
    IsRemote(ref) || Entered(w, ResolveInput(base, ref))
  }

  predicate Entered(w: Walk, p: Option<string>) {
    p.Some? && p.value in w.seen
  }

  predicate Known(paths: seq<string>, p: Option<string>) {
    p.Some? && p.value in paths
  }

  predicate IncludeCovered(w: Walk, e: Include, base: string) {
    && e.paths != []
    && (forall i :: 0 <= i < |e.paths| ==> RefCovered(w, base, e.paths[i]))
    && (forall i :: 0 <= i < |e.envFiles| ==> Known(w.paths, ResolveInput(base, e.envFiles[i])))
    && IncludeDir(base, e).Some?
    && (e.envFiles == [] && ResolveInput(IncludeDir(base, e).value, ".env").Some? ==>
          ResolveInput(IncludeDir(base, e).value, ".env").value in w.paths)
  }

  predicate ItemCovered(w: Walk, item: Node, base: string) {
    IncludeOf(item).Some? && IncludeCovered(w, IncludeOf(item).value, base)
  }

  predicate IncludesCovered(w: Walk, node: Node, base: string) {
    node.Null? || (node.List? && forall i :: 0 <= i < |node.items| ==> ItemCovered(w, node.items[i], base))
  }

  predicate ServiceCovered(w: Walk, service: Node, base: string) {
    ExtendsOf(service).Some? && (ExtendsOf(service).value == ""
        || Entered(w, ResolveInput(base, ExtendsOf(service).value)))
  }

  predicate ExtendsCovered(w: Walk, node: Node, base: string) {
    node.Null? || (node.Mapping? && forall name :: name in node.fields ==> ServiceCovered(w, node.fields[name], base))
  }

  predicate CoveredFrom(tree: Tree, parse: Parser, w: Walk, file: string, dir: string) {
    var doc := FirstDoc(tree, parse, file);
    doc.Some? && IncludesCovered(w, Field(doc.value, "include"), dir)
        && ExtendsCovered(w, Field(doc.value, "services"), dir)
  }

  /*** The same, key by key ***/

  /** The texts of a node that is one text or a list of them. */
  predicate Texts(n: Node, text: string) {
    n == Str(text) || (n.List? && Str(text) in n.items)
  }

  /** An include entry that is covered is a path, or a mapping whose paths were entered, whose environment files are
      inputs and whose project directory, if it names one, resolves. */
  lemma ItemCoveredMeans(w: Walk, item: Node, base: string)
    requires ItemCovered(w, item, base)
    ensures item.Str? || item.Mapping?
    ensures item.Str? ==> RefCovered(w, base, item.text)
    ensures item.Mapping? ==> forall text :: Texts(Field(item.fields, "path"), text) ==> RefCovered(w, base, text)
    ensures item.Mapping? ==>
      forall text :: Texts(Field(item.fields, "env_file"), text) ==> Known(w.paths, ResolveInput(base, text))
    ensures item.Mapping? ==>
      forall text :: Field(item.fields, "project_directory") == Str(text) && text != "" ==>
          ResolveInput(base, text).Some?
  {
    hide ResolveInput, IsRemote;
    var e := IncludeOf(item).value;
    if item.Str? {
      assert e.paths[0] == item.text;
    } else {
      forall text | Texts(Field(item.fields, "path"), text) ensures RefCovered(w, base, text) {
        var i := TextIndex(Field(item.fields, "path"), text);
        assert e.paths[i] == text;
      }
      forall text | Texts(Field(item.fields, "env_file"), text) ensures Known(w.paths, ResolveInput(base, text)) {
        var i := TextIndex(Field(item.fields, "env_file"), text);
        assert e.envFiles[i] == text;
      }
    }
  }

  lemma TextIndex(n: Node, text: string) returns (i: nat)
    requires Texts(n, text) && StringList(n).Some?
    ensures i < |StringList(n).value| && StringList(n).value[i] == text
  {
    if n.List? {
      i :| 0 <= i < |n.items| && n.items[i] == Str(text);
    } else {
      i := 0;
    }
  }

  /** A file of a complete walk: what its keys "include" and "services" name was entered. */
  lemma CoveredMeans(tree: Tree, parse: Parser, w: Walk, file: string, dir: string, doc: Doc)
    requires CoveredFrom(tree, parse, w, file, dir) && FirstDoc(tree, parse, file) == Some(doc)
    ensures "include" in doc && doc["include"].List? ==>
      forall i :: 0 <= i < |doc["include"].items| ==> ItemCovered(w, doc["include"].items[i], dir)
    ensures "include" in doc ==> doc["include"].Null? || doc["include"].List?
    ensures "services" in doc ==> doc["services"].Null? || doc["services"].Mapping?
    ensures forall name, text :: ExtendsFile(doc, name, text) && text != "" ==> Entered(w, ResolveInput(dir, text))
  {
    hide ResolveInput, IsRemote;
    forall name, text | ExtendsFile(doc, name, text) && text != "" ensures Entered(w, ResolveInput(dir, text)) {
      assert ServiceCovered(w, doc["services"].fields[name], dir);
    }
  }

  /** The document's service of this name extends one in this file. */
  predicate ExtendsFile(doc: Doc, name: string, text: string) {
    && "services" in doc && doc["services"].Mapping? && name in doc["services"].fields
    && var service := doc["services"].fields[name];
       && service.Mapping? && "extends" in service.fields && service.fields["extends"].Mapping?
       && "file" in service.fields["extends"].fields && service.fields["extends"].fields["file"] == Str(text)
  }

  /*** What a file refers to ***/

  /** Files, each with a directory that its references are resolved against. */
  type Places = iset<(string, string)>

  /** An include entry of a document read under `base` names the file, and gives it the directory. */
  predicate IncludeNames(e: Include, base: string, file: string, dir: string) {
    e.paths != [] && IncludeDir(base, e) == Some(dir) &&
    exists i :: 0 <= i < |e.paths| && !IsRemote(e.paths[i]) && ResolveInput(base, e.paths[i]) == Some(file)
  }

  predicate ItemNames(item: Node, base: string, file: string, dir: string) {
    IncludeOf(item).Some? && IncludeNames(IncludeOf(item).value, base, file, dir)
  }

  predicate IncludesName(node: Node, base: string, file: string, dir: string) {
    node.List? && exists k :: 0 <= k < |node.items| && ItemNames(node.items[k], base, file, dir)
  }

  predicate ServiceNames(service: Node, base: string, file: string, dir: string) {
    ExtendsOf(service).Some? && ExtendsOf(service).value != ""
        && ResolveInput(base, ExtendsOf(service).value) == Some(file) && dir == Dir(file)
  }

  predicate ExtendsName(node: Node, base: string, file: string, dir: string) {
    node.Mapping? && exists name :: name in node.fields && ServiceNames(node.fields[name], base, file, dir)
  }

  /** The file at one place refers to the file at another. */
  predicate Refers(tree: Tree, parse: Parser, file: string, base: string, file': string, dir: string) {
    var doc := FirstDoc(tree, parse, file);
    doc.Some? && (IncludesName(Field(doc.value, "include"), base, file', dir)
        || ExtendsName(Field(doc.value, "services"), base, file', dir))
  }

  /** References do not lead out of these places. */
  ghost predicate ClosedUnder(tree: Tree, parse: Parser, reach: Places) {
    forall f, d, f', d' :: (f, d) in reach && Refers(tree, parse, f, d, f', d') ==> (f', d') in reach
  }

  /** The file was entered with a directory in reach, and for that directory all its references are covered. */
  ghost predicate Covered(tree: Tree, parse: Parser, reach: Places, w: Walk, file: string) {
    exists dir :: BaseOk(dir) && (file, dir) in reach && CoveredFrom(tree, parse, w, file, dir)
  }

  lemma CoveredFromGrows(tree: Tree, parse: Parser, w: Walk, r: Walk, file: string, dir: string)
    requires Extends(w, r) && CoveredFrom(tree, parse, w, file, dir)
    ensures CoveredFrom(tree, parse, r, file, dir)
  {
    var doc := FirstDoc(tree, parse, file).value;
    IncludesGrow(w, r, Field(doc, "include"), dir);
  }

  lemma IncludeGrows(w: Walk, r: Walk, e: Include, base: string)
    requires Extends(w, r) && IncludeCovered(w, e, base)
    ensures IncludeCovered(r, e, base)
  {
  }

  lemma IncludesGrow(w: Walk, r: Walk, node: Node, base: string)
    requires Extends(w, r) && IncludesCovered(w, node, base)
    ensures IncludesCovered(r, node, base)
  {
    if node.List? {
      forall i | 0 <= i < |node.items| ensures ItemCovered(r, node.items[i], base) {
        IncludeGrows(w, r, IncludeOf(node.items[i]).value, base);
      }
    }
  }

  /*** Canonical paths are never remote ***/

  lemma {:induction false} SchemeSplits(s: string) returns (i: nat)
    requires Contains(s, "://")
    ensures 1 <= i < |Split(s)| - 1 && Split(s)[i] == ""
  {
    if HasPrefix(s, "://") {
      var rest := s[3..];
      assert s == ":" + "/" + ("" + "/" + rest);
      SplitSep(":", "" + "/" + rest);
      SplitSep("", rest);
      i := 1;
    } else {
      i := SchemeSplits(s[1..]);
      i := if s[0] == '/' then i + 1 else i;
    }
  }

  lemma CanonicalIsLocal(p: string)
    requires Canonical(p)
    ensures !IsRemote(p) && Clean(p) == p
  {
    var names := Components(p);
    if names == [] {
      assert Split("/") == ["", ""];
    } else {
      assert p == "" + "/" + Join(names);
      SplitSep("", Join(names));
      SplitJoin(names);
    }
    if Contains(p, "://") {
      var i := SchemeSplits(p);
    }
    NamesOfRooted(names);
  }

  /*** The walk ***/

  /** Every path is canonical and every file entered is among them. */
  predicate Sound(w: Walk) {
    (forall p :: p in w.seen ==> p in w.paths) && (forall p :: p in w.paths ==> Canonical(p))
  }

  /** If the walk is still complete, what it entered since `w` is covered. */
  ghost predicate Closes(tree: Tree, parse: Parser, reach: Places, w: Walk, r: Walk) {
    && Sound(r)
    && (r.complete ==> forall p :: p in r.seen - w.seen ==> Covered(tree, parse, reach, r, p))
  }

  lemma ClosesChain(tree: Tree, parse: Parser, reach: Places, w: Walk, m: Walk, r: Walk)
    requires Extends(w, m) && Extends(m, r) && Closes(tree, parse, reach, w, m) && Closes(tree, parse, reach, m, r)
    ensures Closes(tree, parse, reach, w, r)
  {
    hide CoveredFrom;
    if r.complete {
      forall p | p in r.seen - w.seen ensures Covered(tree, parse, reach, r, p) {
        if p in m.seen {
          assert Covered(tree, parse, reach, m, p);
          var dir :| BaseOk(dir) && (p, dir) in reach && CoveredFrom(tree, parse, m, p, dir);
          CoveredFromGrows(tree, parse, m, r, p, dir);
        }
      }
    }
  }

  /** What the reference names lies in reach. */
  predicate RefIn(reach: Places, base: string, ref: string, dir: string) {
    !IsRemote(ref) && ResolveInput(base, ref).Some? ==> (ResolveInput(base, ref).value, dir) in reach
  }

  lemma {:induction false} VisitCovers(tree: Tree, parse: Parser, reach: Places, w: Walk, ref: string, refBase: string,
      dir: string, depth: nat)
    requires Sound(w) && BaseOk(refBase) && BaseOk(dir) && ClosedUnder(tree, parse, reach)
        && RefIn(reach, refBase, ref, dir)
    ensures var r := Visit(tree, parse, w, ref, refBase, dir, depth);
      Closes(tree, parse, reach, w, r) && (r.complete ==> RefCovered(r, refBase, ref))
    decreases MAX_INCLUDE_DEPTH - depth, 3, 0
  {
    hide Covered;
    var abs := ResolveInput(refBase, ref);
    ResolvedCanonical(refBase, ref);
    if !IsRemote(ref) && abs.Some? && abs.value !in w.seen {
      var file := abs.value;
      var w1 := w.Enter(file);
      assert file in w1.paths && Sound(w1);
      var doc := FirstDoc(tree, parse, file);
      if depth < MAX_INCLUDE_DEPTH && doc.Some? {
        EnteredCovers(tree, parse, reach, w, file, doc.value, dir, depth);
      }
    }
  }

  lemma {:induction false} EnteredCovers(tree: Tree, parse: Parser, reach: Places, w: Walk, file: string, doc: Doc,
      dir: string, depth: nat)
    requires Sound(w) && Canonical(file) && BaseOk(dir) && depth < MAX_INCLUDE_DEPTH
        && FirstDoc(tree, parse, file) == Some(doc)
    requires ClosedUnder(tree, parse, reach) && (file, dir) in reach
    ensures var w2 := WalkIncludes(tree, parse, w.Enter(file), Field(doc, "include"), dir, depth);
      var r := WalkExtends(tree, parse, w2, Field(doc, "services"), dir, depth);
      Closes(tree, parse, reach, w, r) && file in r.seen
    decreases MAX_INCLUDE_DEPTH - depth, 2, 2
  {
    var w1 := w.Enter(file);
    assert file in w1.paths && file in w1.seen && Sound(w1);
    var includes, services := Field(doc, "include"), Field(doc, "services");
    var w2 := WalkIncludes(tree, parse, w1, includes, dir, depth);
    var r := WalkExtends(tree, parse, w2, services, dir, depth);
    forall f, d | IncludesName(includes, dir, f, d) || ExtendsName(services, dir, f, d) ensures (f, d) in reach {
      assert Refers(tree, parse, file, dir, f, d);
    }
    IncludesCovers(tree, parse, reach, w1, includes, dir, depth);
    ExtendsCovers(tree, parse, reach, w2, services, dir, depth);
    hide WalkIncludes, WalkExtends, IncludesCovered, ExtendsCovered, IncludesName, ExtendsName, Refers, Sound;
    ClosesChain(tree, parse, reach, w1, w2, r);
    if r.complete {
      IncludesGrow(w2, r, includes, dir);
      assert CoveredFrom(tree, parse, r, file, dir);
      assert Covered(tree, parse, reach, r, file);
    }
  }

  lemma {:induction false} IncludesCovers(tree: Tree, parse: Parser, reach: Places, w: Walk, node: Node, base: string,
      depth: nat)
    requires Sound(w) && BaseOk(base) && depth < MAX_INCLUDE_DEPTH && ClosedUnder(tree, parse, reach)
    requires forall f, d :: IncludesName(node, base, f, d) ==> (f, d) in reach
    ensures var r := WalkIncludes(tree, parse, w, node, base, depth);
      Closes(tree, parse, reach, w, r) && (r.complete ==> IncludesCovered(r, node, base))
    decreases MAX_INCLUDE_DEPTH - depth, 2, 1
  {
    hide ClosedUnder, Covered;
    if node.List? {
      forall k, f, d | 0 <= k < |node.items| && ItemNames(node.items[k], base, f, d) ensures (f, d) in reach {
        assert IncludesName(node, base, f, d);
      }
      IncludeAllCovers(tree, parse, reach, w, node.items, base, depth);
    }
  }

  lemma {:induction false} IncludeAllCovers(tree: Tree, parse: Parser, reach: Places, w: Walk, items: seq<Node>,
      base: string, depth: nat)
    requires Sound(w) && BaseOk(base) && depth < MAX_INCLUDE_DEPTH && ClosedUnder(tree, parse, reach)
    requires forall k, f, d :: 0 <= k < |items| && ItemNames(items[k], base, f, d) ==> (f, d) in reach
    ensures var r := IncludeAll(tree, parse, w, items, base, depth);
      Closes(tree, parse, reach, w, r) && (r.complete ==> IncludesCovered(r, List(items), base))
    decreases MAX_INCLUDE_DEPTH - depth, 2, 0, |items|
  {
    hide ClosedUnder, Covered, Sound, WalkInclude, IncludeCovered, IncludeNames;
    if items != [] {
      var n := |items| - 1;
      var r := IncludeAll(tree, parse, w, items, base, depth);
      var w1 := IncludeAll(tree, parse, w, items[..n], base, depth);
      var e := IncludeOf(items[n]);
      IncludeAllCovers(tree, parse, reach, w, items[..n], base, depth);
      if e.Some? {
        forall f, d | IncludeNames(e.value, base, f, d) ensures (f, d) in reach {
          assert ItemNames(items[n], base, f, d);
        }
        IncludeCovers(tree, parse, reach, w1, e.value, base, depth);
        ClosesChain(tree, parse, reach, w, w1, r);
        if r.complete {
          IncludesGrow(w1, r, List(items[..n]), base);
          ItemsSnoc(r, items, base);
        }
      } else {
        assert Sound(r) by { assert r == w1.Gap(); SoundGap(w1); }
      }
    }
  }

  lemma SoundGap(w: Walk)
    requires Sound(w)
    ensures Sound(w.Gap())
  {
  }

  lemma ItemsSnoc(w: Walk, items: seq<Node>, base: string)
    requires items != [] && IncludesCovered(w, List(items[..|items| - 1]), base)
        && ItemCovered(w, items[|items| - 1], base)
    ensures IncludesCovered(w, List(items), base)
  {
    hide ItemCovered;
    var n := |items| - 1;
    var init := List(items[..n]);
    forall i | 0 <= i < |items| ensures ItemCovered(w, items[i], base) {
      assert i < n ==> init.items[i] == items[i];
    }
  }

  lemma {:induction false} IncludeCovers(tree: Tree, parse: Parser, reach: Places, w: Walk, e: Include, base: string,
      depth: nat)
    requires Sound(w) && BaseOk(base) && depth < MAX_INCLUDE_DEPTH && ClosedUnder(tree, parse, reach)
    requires forall f, d :: IncludeNames(e, base, f, d) ==> (f, d) in reach
    ensures var r := WalkInclude(tree, parse, w, e, base, depth);
      Closes(tree, parse, reach, w, r) && (r.complete ==> IncludeCovered(r, e, base))
    decreases MAX_INCLUDE_DEPTH - depth, 1
  {
    hide ClosedUnder;
    if e.paths != [] && IncludeDir(base, e).Some? {
      var dir := IncludeDir(base, e).value;
      IncludeDirOk(base, e);
      var w1 := AddEnvFiles(w, e.envFiles, base);
      var w2 := AddDefaultEnv(w1, e, dir);
      EnvFilesCovered(w, e.envFiles, base);
      DefaultEnvCovered(w1, e, dir);
      forall i | 0 <= i < |e.paths| ensures RefIn(reach, base, e.paths[i], dir) {
        assert !IsRemote(e.paths[i]) && ResolveInput(base, e.paths[i]).Some? ==>
            IncludeNames(e, base, ResolveInput(base, e.paths[i]).value, dir);
      }
      VisitAllCovers(tree, parse, reach, w2, e.paths, base, dir, depth + 1);
      var r := WalkInclude(tree, parse, w, e, base, depth);
      assert r == VisitAll(tree, parse, w2, e.paths, base, dir, depth + 1);
      hide WalkInclude, VisitAll, AddEnvFiles, AddDefaultEnv, Covered, Known, ResolveInput, Sound, RefCovered,
          IncludeDir;
      assert Closes(tree, parse, reach, w, r);
      if r.complete {
        forall i | 0 <= i < |e.envFiles| ensures Known(r.paths, ResolveInput(base, e.envFiles[i])) {
          assert Known(w1.paths, ResolveInput(base, e.envFiles[i]));
          KnownGrows(w1.paths, r.paths, ResolveInput(base, e.envFiles[i]));
        }
      }
    }
  }

  lemma KnownGrows(paths: seq<string>, more: seq<string>, p: Option<string>)
    requires paths <= more && Known(paths, p)
    ensures Known(more, p)
  {
  }

  lemma DefaultEnvCovered(w: Walk, e: Include, dir: string)
    requires Sound(w) && BaseOk(dir)
    ensures var r := AddDefaultEnv(w, e, dir);
      && Sound(r) && r.seen == w.seen
      && (e.envFiles == [] && ResolveInput(dir, ".env").Some? ==> ResolveInput(dir, ".env").value in r.paths)
  {
    ResolvedCanonical(dir, ".env");
    assert dir == "" ==> ResolveInput(dir, ".env").None?;
  }

  lemma IncludeDirOk(base: string, e: Include)
    requires BaseOk(base) && e.paths != []
    ensures IncludeDir(base, e).Some? ==> BaseOk(IncludeDir(base, e).value)
  {
    ResolvedCanonical(base, e.projectDir);
    ResolvedCanonical(base, e.paths[0]);
    var first := ResolveInput(base, e.paths[0]);
    if first.Some? {
      DirCanonical(first.value);
    }
  }

  lemma {:induction false} EnvFilesCovered(w: Walk, files: seq<string>, base: string)
    requires Sound(w) && BaseOk(base)
    ensures var r := AddEnvFiles(w, files, base);
      && Sound(r) && r.seen == w.seen
      && (r.complete ==> forall i :: 0 <= i < |files| ==> Known(r.paths, ResolveInput(base, files[i])))
  {
    hide ResolveInput, Canonical;
    if files != [] {
      var n := |files| - 1;
      var w1 := AddEnvFiles(w, files[..n], base);
      EnvFilesCovered(w, files[..n], base);
      ResolvedCanonical(base, files[n]);
      var r := AddEnvFiles(w, files, base);
      assert r == w1.Add(ResolveInput(base, files[n]));
      hide AddEnvFiles;
      if r.complete {
        forall i | 0 <= i < |files| ensures Known(r.paths, ResolveInput(base, files[i])) {
          if i < n {
            assert Known(w1.paths, ResolveInput(base, files[..n][i]));
          }
        }
      }
    }
  }

  lemma {:induction false} VisitAllCovers(tree: Tree, parse: Parser, reach: Places, w: Walk, refs: seq<string>,
      refBase: string, dir: string, depth: nat)
    requires Sound(w) && BaseOk(refBase) && BaseOk(dir) && ClosedUnder(tree, parse, reach)
    requires forall i :: 0 <= i < |refs| ==> RefIn(reach, refBase, refs[i], dir)
    ensures var r := VisitAll(tree, parse, w, refs, refBase, dir, depth);
      Closes(tree, parse, reach, w, r) && (r.complete ==>
          forall i :: 0 <= i < |refs| ==> RefCovered(r, refBase, refs[i]))
    decreases MAX_INCLUDE_DEPTH - depth, 4, |refs|
  {
    hide Visit, RefCovered, Covered, Sound, ClosedUnder, RefIn;
    if refs != [] {
      var n := |refs| - 1;
      var w1 := VisitAll(tree, parse, w, refs[..n], refBase, dir, depth);
      VisitAllCovers(tree, parse, reach, w, refs[..n], refBase, dir, depth);
      VisitCovers(tree, parse, reach, w1, refs[n], refBase, dir, depth);
      var r := VisitAll(tree, parse, w, refs, refBase, dir, depth);
      assert r == Visit(tree, parse, w1, refs[n], refBase, dir, depth);
      ClosesChain(tree, parse, reach, w, w1, r);
      hide VisitAll, Closes;
      if r.complete {
        forall i | 0 <= i < |refs| ensures RefCovered(r, refBase, refs[i]) {
          if i < n {
            assert RefCovered(w1, refBase, refs[..n][i]);
            RefGrows(w1, r, refBase, refs[i]);
          }
        }
      }
    }
  }

  lemma RefGrows(w: Walk, r: Walk, base: string, ref: string)
    requires Extends(w, r) && RefCovered(w, base, ref)
    ensures RefCovered(r, base, ref)
  {
  }

  lemma {:induction false} ExtendsCovers(tree: Tree, parse: Parser, reach: Places, w: Walk, node: Node, base: string,
      depth: nat)
    requires Sound(w) && BaseOk(base) && depth < MAX_INCLUDE_DEPTH && ClosedUnder(tree, parse, reach)
    requires forall f, d :: ExtendsName(node, base, f, d) ==> (f, d) in reach
    ensures var r := WalkExtends(tree, parse, w, node, base, depth);
      Closes(tree, parse, reach, w, r) && (r.complete ==> ExtendsCovered(r, node, base))
    decreases MAX_INCLUDE_DEPTH - depth, 2, 1
  {
    hide ClosedUnder, Covered;
    if node.Mapping? {
      var names := Ordering.Sorted(node.fields.Keys);
      forall i, f, d | 0 <= i < |names| && ServiceNames(Field(node.fields, names[i]), base, f, d)
          ensures (f, d) in reach {
        assert names[i] in node.fields;
        assert ExtendsName(node, base, f, d);
      }
      ExtendAllCovers(tree, parse, reach, w, node.fields, names, base, depth);
    }
  }

  lemma {:induction false} ExtendAllCovers(tree: Tree, parse: Parser, reach: Places, w: Walk, services: Doc,
      names: seq<string>, base: string, depth: nat)
    requires Sound(w) && BaseOk(base) && depth < MAX_INCLUDE_DEPTH && ClosedUnder(tree, parse, reach)
    requires forall i, f, d :: 0 <= i < |names| && ServiceNames(Field(services, names[i]), base, f, d) ==>
        (f, d) in reach
    ensures var r := ExtendAll(tree, parse, w, services, names, base, depth);
      && Closes(tree, parse, reach, w, r)
      && (r.complete ==> forall i :: 0 <= i < |names| ==> ServiceCovered(r, Field(services, names[i]), base))
    decreases MAX_INCLUDE_DEPTH - depth, 2, 0, |names|
  {
    hide ExtendOne, ServiceCovered, Covered, Sound, ClosedUnder, ServiceNames;
    if names != [] {
      var n := |names| - 1;
      var w1 := ExtendAll(tree, parse, w, services, names[..n], base, depth);
      ExtendAllCovers(tree, parse, reach, w, services, names[..n], base, depth);
      ExtendOneCovers(tree, parse, reach, w1, Field(services, names[n]), base, depth);
      var r := ExtendAll(tree, parse, w, services, names, base, depth);
      assert r == ExtendOne(tree, parse, w1, Field(services, names[n]), base, depth);
      ClosesChain(tree, parse, reach, w, w1, r);
      hide ExtendAll, Closes;
      if r.complete {
        forall i | 0 <= i < |names| ensures ServiceCovered(r, Field(services, names[i]), base) {
          if i < n {
            assert ServiceCovered(w1, Field(services, names[..n][i]), base);
            ServiceGrows(w1, r, Field(services, names[i]), base);
          }
        }
      }
    }
  }

  lemma ServiceGrows(w: Walk, r: Walk, service: Node, base: string)
    requires Extends(w, r) && ServiceCovered(w, service, base)
    ensures ServiceCovered(r, service, base)
  {
  }

  lemma {:induction false} ExtendOneCovers(tree: Tree, parse: Parser, reach: Places, w: Walk, service: Node,
      base: string, depth: nat)
    requires Sound(w) && BaseOk(base) && depth < MAX_INCLUDE_DEPTH && ClosedUnder(tree, parse, reach)
    requires forall f, d :: ServiceNames(service, base, f, d) ==> (f, d) in reach
    ensures var r := ExtendOne(tree, parse, w, service, base, depth);
      Closes(tree, parse, reach, w, r) && (r.complete ==> ServiceCovered(r, service, base))
    decreases MAX_INCLUDE_DEPTH - depth, 1
  {
    hide ClosedUnder, Covered;
    var file := ExtendsOf(service);
    if file.Some? && file.value != "" {
      var abs := ResolveInput(base, file.value);
      ResolvedCanonical(base, file.value);
      if abs.Some? {
        DirCanonical(abs.value);
        CanonicalIsLocal(abs.value);
        assert ServiceNames(service, base, abs.value, Dir(abs.value));
        VisitCovers(tree, parse, reach, w, abs.value, base, Dir(abs.value), depth + 1);
      }
    }
  }
}
