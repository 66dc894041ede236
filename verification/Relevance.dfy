/** Whether a change matters: the relevance test of internal/reconcile/apply.go. */
module Relevance {
  import opened Wrappers
  import opened Paths
  import opened Inputs
  import opened Coverage
  import opened ProjectInputs
  import Stacks

  /** Where the repository is; `cwd` is the process's working directory. */
  datatype Place = Place(cwd: string, repo: string)
  {
    predicate Valid() {
      IsAbs(cwd)
    }

    function At(p: string): (abs: string)
      requires Valid()
      ensures Canonical(abs) && IsAbs(abs)
    {
      ResolvedIsCanonical(cwd, repo, p);
      ResolveUnderRepo(cwd, repo, p)
    }
  }

  /*** Changed inputs ***/

  predicate Touches(input: string, abs: string)
    requires IsAbs(abs)
  {
    abs == input || PathUnder(input, abs)
  }

  ghost predicate DependencyChanged(at: Place, inputs: seq<string>, changed: seq<string>)
    requires at.Valid()
  {
    exists i, j :: 0 <= i < |changed| && 0 <= j < |inputs| && Touches(inputs[j], at.At(changed[i]))
  }

  method FindChangedDependency(at: Place, inputs: seq<string>, changed: seq<string>) returns (found: bool)
    requires at.Valid()
    ensures found <==> DependencyChanged(at, inputs, changed)
  {
    hide PathUnder, Canonical, Place.At;
    for i := 0 to |changed|
      invariant forall k, j :: 0 <= k < i && 0 <= j < |inputs| ==> !Touches(inputs[j], at.At(changed[k]))
    {
      var abs := at.At(changed[i]);
      for j := 0 to |inputs|
        invariant forall k :: 0 <= k < j ==> !Touches(inputs[k], abs)
      {
        if abs == inputs[j] || PathUnder(inputs[j], abs) {
          assert Touches(inputs[j], at.At(changed[i]));
          return true;
        }
      }
    }
    return false;
  }

  /** The diff names every path at which the two trees differ. */
  ghost predicate ListsDifferences(at: Place, a: Tree, b: Tree, changed: seq<string>)
    requires at.Valid()
  {
    forall p :: Canonical(p) && a(p) != b(p) ==> exists i :: 0 <= i < |changed| && at.At(changed[i]) == p
  }

  /** The trees agree at every input and everywhere below one. */
  ghost predicate SameBelow(a: Tree, b: Tree, inputs: seq<string>) {
    forall j, p :: 0 <= j < |inputs| && Canonical(p) && Touches(inputs[j], p) ==> a(p) == b(p)
  }

  lemma UnchangedBelow(at: Place, a: Tree, b: Tree, inputs: seq<string>, changed: seq<string>)
    requires at.Valid() && ListsDifferences(at, a, b, changed) && !DependencyChanged(at, inputs, changed)
    ensures SameBelow(a, b, inputs)
  {
    forall j, p | 0 <= j < |inputs| && Canonical(p) && Touches(inputs[j], p) ensures a(p) == b(p) {
      assert forall i :: 0 <= i < |changed| ==> !Touches(inputs[j], at.At(changed[i]));
    }
  }

  /** Skipping is sound: when no changed file is an input or lies under one, the inputs of the project are the same in
      both trees, as is everything at and below them. */
  lemma SkipIsSound(at: Place, a: Tree, b: Tree, parse: Parser, p: Project, changed: seq<string>)
    requires at.Valid() && BaseOk(p.workingDir) && ListsDifferences(at, a, b, changed)
    requires !DependencyChanged(at, InputsOf(a, parse, p).paths, changed)
    ensures InputsOf(b, parse, p) == InputsOf(a, parse, p)
    ensures SameBelow(a, b, InputsOf(a, parse, p).paths)
  {
    var inputs := InputsOf(a, parse, p).paths;
    UnchangedBelow(at, a, b, inputs, changed);
    InputsCanonical(a, parse, p);
    forall q | q in inputs ensures a(q) == b(q) {
      var j :| 0 <= j < |inputs| && inputs[j] == q;
      assert Touches(inputs[j], q);
    }
    InputsFrame(a, b, parse, p);
  }

  /*** Loading ***/

  /** compose.LoadProject on a tree; None is an error. */
  type Loader = (Tree, seq<string>, string) -> Option<Project>

  /** Loading this project gives an absolute working directory, and between these two trees it depends on nothing
      outside a complete set of the project's inputs. */
  ghost predicate DependsOnInputs(load: Loader, parse: Parser, a: Tree, b: Tree, files: seq<string>, name: string) {
    var p := load(a, files, name);
    p.Some? ==>
      && BaseOk(p.value.workingDir)
      && (InputsOf(a, parse, p.value).complete && SameBelow(a, b, InputsOf(a, parse, p.value).paths) ==>
          load(b, files, name) == p)
  }

  /** projectInputsRelevant */
  ghost predicate InputsRelevant(at: Place, load: Loader, parse: Parser, tree: Tree, files: seq<string>, name: string,
      changed: seq<string>)
    requires at.Valid()
  {
    var p := load(tree, files, name);
    p.None? || !InputsOf(tree, parse, p.value).complete
        || DependencyChanged(at, InputsOf(tree, parse, p.value).paths, changed)
  }

  /** Nothing that the project is made of differs between the trees. */
  ghost predicate SameProject(load: Loader, parse: Parser, a: Tree, b: Tree, files: seq<string>, name: string) {
    var p := load(a, files, name);
    && p.Some? && load(b, files, name) == p
    && InputsOf(a, parse, p.value).complete && InputsOf(b, parse, p.value) == InputsOf(a, parse, p.value)
    && SameBelow(a, b, InputsOf(a, parse, p.value).paths)
  }

  lemma IrrelevantIsSame(at: Place, load: Loader, parse: Parser, a: Tree, b: Tree, files: seq<string>, name: string,
      changed: seq<string>)
    requires at.Valid() && DependsOnInputs(load, parse, a, b, files, name) && ListsDifferences(at, a, b, changed)
    requires !InputsRelevant(at, load, parse, a, files, name, changed)
    ensures SameProject(load, parse, a, b, files, name)
  {
    var p := load(a, files, name).value;
    SkipIsSound(at, a, b, parse, p, changed);
  }

  /*** The relevance test ***/

  datatype Config = Config(at: Place, composeDir: string, composeFile: string, project: string)

  /** composeDirRelevant */
  ghost predicate UnderDir(at: Place, dir: string, changed: seq<string>)
    requires at.Valid()
  {
    exists i :: 0 <= i < |changed| && PathUnder(at.At(dir), at.At(changed[i]))
  }

  method AnyUnderDir(at: Place, dir: string, changed: seq<string>) returns (found: bool)
    requires at.Valid()
    ensures found <==> UnderDir(at, dir, changed)
  {
    hide PathUnder, Canonical, Place.At;
    var abs := at.At(dir);
    for i := 0 to |changed|
      invariant forall k :: 0 <= k < i ==> !PathUnder(abs, at.At(changed[k]))
    {
      if PathUnder(abs, at.At(changed[i])) { return true; }
    }
    return false;
  }

  /** stackFilesChanged */
  ghost predicate FilesChanged(at: Place, files: seq<string>, changed: seq<string>)
    requires at.Valid()
  {
    exists i, j :: 0 <= i < |changed| && 0 <= j < |files| && at.At(files[j]) == at.At(changed[i])
  }

  method AnyFileChanged(at: Place, files: seq<string>, changed: seq<string>) returns (found: bool)
    requires at.Valid()
    ensures found <==> FilesChanged(at, files, changed)
  {
    hide PathUnder, Canonical, Place.At;
    var targets: set<string> := {};
    for j := 0 to |files|
      invariant forall p :: p in targets <==> exists k :: 0 <= k < j && at.At(files[k]) == p
    {
      targets := targets + {at.At(files[j])};
    }
    for i := 0 to |changed|
      invariant forall k :: 0 <= k < i ==> at.At(changed[k]) !in targets
    {
      if at.At(changed[i]) in targets { return true; }
    }
    return false;
  }

  /** relevantChange on the current checkout; `stacks` is what discovery found there, None when it failed. */
  ghost predicate Relevant(c: Config, load: Loader, parse: Parser, tree: Tree, stacks: Option<seq<Stacks.Stack>>,
      changed: seq<string>)
    requires c.at.Valid()
  {
    if c.composeDir == "" then
      FilesChanged(c.at, [c.composeFile], changed)
          || InputsRelevant(c.at, load, parse, tree, [c.at.At(c.composeFile)], c.project, changed)
    else
      || UnderDir(c.at, c.composeDir, changed)
      || stacks.None?
      || exists i :: 0 <= i < |stacks.value| &&
          InputsRelevant(c.at, load, parse, tree, stacks.value[i].files, stacks.value[i].project, changed)
  }

  method ProjectInputsRelevant(at: Place, load: Loader, parse: Parser, tree: Tree, files: seq<string>, name: string,
      changed: seq<string>) returns (r: bool)
    requires at.Valid()
    ensures r <==> InputsRelevant(at, load, parse, tree, files, name, changed)
  {
    hide DependencyChanged, InputsOf;
    var p := load(tree, files, name);
    if p.None? { return true; }
    var inputs := Compute(tree, parse, p.value);
    if !inputs.complete { return true; }
    r := FindChangedDependency(at, inputs.paths, changed);
  }

  method RelevantChange(c: Config, load: Loader, parse: Parser, tree: Tree, stacks: Option<seq<Stacks.Stack>>,
      changed: seq<string>) returns (r: bool)
    requires c.at.Valid()
    ensures r <==> Relevant(c, load, parse, tree, stacks, changed)
  {
    hide InputsRelevant, FilesChanged, UnderDir, Place.At, Canonical;
    if c.composeDir == "" {
      r := AnyFileChanged(c.at, [c.composeFile], changed);
      if r { return; }
      r := ProjectInputsRelevant(c.at, load, parse, tree, [c.at.At(c.composeFile)], c.project, changed);
      return;
    }
    r := AnyUnderDir(c.at, c.composeDir, changed);
    if r || stacks.None? { return true; }
    for i := 0 to |stacks.value|
      invariant forall k :: 0 <= k < i ==> !InputsRelevant(c.at, load, parse, tree, stacks.value[k].files,
          stacks.value[k].project, changed)
    {
      r := ProjectInputsRelevant(c.at, load, parse, tree, stacks.value[i].files, stacks.value[i].project, changed);
      if r { return; }
    }
    return false;
  }

  /** A commit left alone as irrelevant changes no stack: each loads to the same project, made of the same files. */
  lemma IrrelevantCommit(c: Config, load: Loader, parse: Parser, a: Tree, b: Tree, stacks: Option<seq<Stacks.Stack>>,
      changed: seq<string>)
    requires c.at.Valid() && ListsDifferences(c.at, a, b, changed)
    requires if c.composeDir == "" then DependsOnInputs(load, parse, a, b, [c.at.At(c.composeFile)], c.project)
             else stacks.Some? ==> forall s :: s in stacks.value ==> DependsOnInputs(load, parse, a, b, s.files,
                 s.project)
    requires !Relevant(c, load, parse, a, stacks, changed)
    ensures c.composeDir == "" ==> SameProject(load, parse, a, b, [c.at.At(c.composeFile)], c.project)
    ensures c.composeDir != "" ==> stacks.Some? && forall s :: s in stacks.value ==> SameProject(load, parse, a, b,
        s.files, s.project)
    ensures c.composeDir != "" ==> forall p :: Canonical(p) && PathUnder(c.at.At(c.composeDir), p) ==> a(p) == b(p)
  {
    hide DependsOnInputs, InputsRelevant, SameProject;
    if c.composeDir == "" {
      IrrelevantIsSame(c.at, load, parse, a, b, [c.at.At(c.composeFile)], c.project, changed);
    } else {
      forall s | s in stacks.value ensures SameProject(load, parse, a, b, s.files, s.project) {
        IrrelevantIsSame(c.at, load, parse, a, b, s.files, s.project, changed);
      }
      forall p | Canonical(p) && PathUnder(c.at.At(c.composeDir), p) ensures a(p) == b(p) {
        assert forall i :: 0 <= i < |changed| ==> !PathUnder(c.at.At(c.composeDir), c.at.At(changed[i]));
      }
    }
  }

  /** A change to anything a project declares, or below it, makes the project relevant. */
  lemma DeclaredChangeIsRelevant(at: Place, load: Loader, parse: Parser, tree: Tree, files: seq<string>, name: string,
                                 changed: seq<string>, i: nat, base: string, path: string)
    requires at.Valid() && load(tree, files, name).Some? && i < |changed|
    requires Declares(load(tree, files, name).value, base, path) && path != "" && !IsRemote(path)
    requires ResolveInput(base, path).Some? ==> Touches(ResolveInput(base, path).value, at.At(changed[i]))
    ensures InputsRelevant(at, load, parse, tree, files, name, changed)
  {
    var p := load(tree, files, name).value;
    DeclaredIsInput(tree, parse, p, base, path);
    hide InputsOf, ResolveInput, IsRemote, Declares, Place.At, PathUnder;
    var inputs := InputsOf(tree, parse, p).paths;
    if ResolveInput(base, path).Some? {
      var j :| 0 <= j < |inputs| && inputs[j] == ResolveInput(base, path).value;
      assert Touches(inputs[j], at.At(changed[i]));
    }
  }

  /** A changed compose file, or a changed file below the compose directory, makes the commit relevant. */
  lemma ChangeIsRelevant(c: Config, load: Loader, parse: Parser, tree: Tree, stacks: Option<seq<Stacks.Stack>>,
                         changed: seq<string>, i: nat)
    requires c.at.Valid() && i < |changed|
    requires if c.composeDir == "" then c.at.At(changed[i]) == c.at.At(c.composeFile)
             else Ancestor(Components(c.at.At(c.composeDir)), Components(c.at.At(changed[i])))
    ensures Relevant(c, load, parse, tree, stacks, changed)
  {
    UnderIsAncestor(c.at.At(c.composeDir), c.at.At(changed[i]));
    hide InputsRelevant, Place.At, PathUnder, Canonical;
    assert [c.composeFile][0] == c.composeFile;
  }
}
