/** The walker as it is written: an object whose recursion updates the paths, the files seen and the verdict in place.
    */
module InputWalking {
  import opened Wrappers
  import opened Paths
  import I = Inputs
  import Ordering

  class InputWalker {
    var paths: seq<string>
    var seen: set<string>
    var complete: bool

    function Here(): I.Walk
      reads this
    {
      I.Walk(paths, seen, complete)
    }

    constructor ()
      ensures Here() == I.Walk([], {}, true)
    {
      paths, seen, complete := [], {}, true;
    }

    method Visit(tree: I.Tree, parse: I.Parser, ref: string, refBase: string, dir: string, depth: nat)
      modifies this
      ensures Here() == I.Visit(tree, parse, old(Here()), ref, refBase, dir, depth)
      decreases I.MAX_INCLUDE_DEPTH - depth, 3, 0
    {
      if I.IsRemote(ref) { return; }
      var abs := I.ResolveInput(refBase, ref);
      if abs.None? {
        complete := false;
        return;
      }
      if abs.value in seen { return; }
      seen := seen + {abs.value};
      paths := paths + [abs.value];
      if depth >= I.MAX_INCLUDE_DEPTH {
        complete := false;
        return;
      }
      var doc := I.FirstDoc(tree, parse, abs.value);
      if doc.None? {
        complete := false;
        return;
      }
      WalkIncludes(tree, parse, I.Field(doc.value, "include"), dir, depth);
      WalkExtends(tree, parse, I.Field(doc.value, "services"), dir, depth);
    }

    method WalkIncludes(tree: I.Tree, parse: I.Parser, node: I.Node, base: string, depth: nat)
      requires depth < I.MAX_INCLUDE_DEPTH
      modifies this
      ensures Here() == I.WalkIncludes(tree, parse, old(Here()), node, base, depth)
      decreases I.MAX_INCLUDE_DEPTH - depth, 2, 0
    {
      if node.Null? { return; }
      if !node.List? {
        complete := false;
        return;
      }
      for i := 0 to |node.items|
        invariant Here() == I.IncludeAll(tree, parse, old(Here()), node.items[..i], base, depth)
      {
        assert node.items[..i + 1][..i] == node.items[..i];
        var e := I.IncludeOf(node.items[i]);
        if e.None? {
          complete := false;
        } else {
          WalkInclude(tree, parse, e.value, base, depth);
        }
      }
      assert node.items[..|node.items|] == node.items;
    }

    method WalkInclude(tree: I.Tree, parse: I.Parser, e: I.Include, base: string, depth: nat)
      requires depth < I.MAX_INCLUDE_DEPTH
      modifies this
      ensures Here() == I.WalkInclude(tree, parse, old(Here()), e, base, depth)
      decreases I.MAX_INCLUDE_DEPTH - depth, 1, 0
    {
      if e.paths == [] {
        complete := false;
        return;
      }
      var includeDir := "";
      if e.projectDir != "" {
        var abs := I.ResolveInput(base, e.projectDir);
        if abs.None? {
          complete := false;
          return;
        }
        includeDir := abs.value;
      } else {
        var abs := I.ResolveInput(base, e.paths[0]);
        if abs.Some? {
          includeDir := Dir(abs.value);
        }
      }
      assert I.IncludeDir(base, e) == Some(includeDir);
      AddEnvFiles(e, base, includeDir);
      ghost var w := Here();
      for i := 0 to |e.paths|
        invariant Here() == I.VisitAll(tree, parse, w, e.paths[..i], base, includeDir, depth + 1)
      {
        assert e.paths[..i + 1][..i] == e.paths[..i];
        Visit(tree, parse, e.paths[i], base, includeDir, depth + 1);
      }
      assert e.paths[..|e.paths|] == e.paths;
    }

    /** The environment files of an include, the implicit one standing in when none is named. */
    method AddEnvFiles(e: I.Include, base: string, includeDir: string)
      modifies this
      ensures Here() == I.AddDefaultEnv(I.AddEnvFiles(old(Here()), e.envFiles, base), e, includeDir)
    {
      for i := 0 to |e.envFiles|
        invariant Here() == I.AddEnvFiles(old(Here()), e.envFiles[..i], base)
      {
        assert e.envFiles[..i + 1][..i] == e.envFiles[..i];
        var abs := I.ResolveInput(base, e.envFiles[i]);
        if abs.None? {
          complete := false;
        } else {
          paths := paths + [abs.value];
        }
      }
      assert e.envFiles[..|e.envFiles|] == e.envFiles;
      if |e.envFiles| == 0 && includeDir != "" {
        var abs := I.ResolveInput(includeDir, ".env");
        if abs.Some? {
          paths := paths + [abs.value];
        }
      }
    }

    method WalkExtends(tree: I.Tree, parse: I.Parser, node: I.Node, base: string, depth: nat)
      requires depth < I.MAX_INCLUDE_DEPTH
      modifies this
      ensures Here() == I.WalkExtends(tree, parse, old(Here()), node, base, depth)
      decreases I.MAX_INCLUDE_DEPTH - depth, 2, 0
    {
      if node.Null? { return; }
      if !node.Mapping? {
        complete := false;
        return;
      }
      var names := Ordering.Sorted(node.fields.Keys);
      for i := 0 to |names|
        invariant Here() == I.ExtendAll(tree, parse, old(Here()), node.fields, names[..i], base, depth)
      {
        assert names[..i + 1][..i] == names[..i];
        WalkService(tree, parse, I.Field(node.fields, names[i]), base, depth);
      }
      assert names[..|names|] == names;
    }

    /** The body of the loop over the services. */
    method WalkService(tree: I.Tree, parse: I.Parser, service: I.Node, base: string, depth: nat)
      requires depth < I.MAX_INCLUDE_DEPTH
      modifies this
      ensures Here() == I.ExtendOne(tree, parse, old(Here()), service, base, depth)
      decreases I.MAX_INCLUDE_DEPTH - depth, 1, 0
    {
      if !service.Mapping? { return; }
      var extending := I.Field(service.fields, "extends");
      if !extending.Mapping? { return; }
      var file := I.OptionalString(I.Field(extending.fields, "file"));
      if file.None? {
        complete := false;
        return;
      }
      if file.value == "" { return; }
      var abs := I.ResolveInput(base, file.value);
      if abs.Some? {
        Visit(tree, parse, abs.value, base, Dir(abs.value), depth + 1);
      } else {
        complete := false;
      }
    }
  }
}
