/** Which stacks a change belongs to: touchedStackDirs and filterChanged of internal/reconcile/reconcile.go. */
module Attribution {
  import opened Wrappers
  import opened Paths
  import opened Inputs
  import opened ProjectInputs
  import opened Relevance
  import opened Stacks
  import Protocol

  /*** The owner of a changed file ***/

  ghost function DirsOf(at: Place, stacks: seq<Stack>): (dirs: set<string>)
    requires at.Valid()
    ensures forall d :: d in dirs ==> Canonical(d)
  {
    set i | 0 <= i < |stacks| && stacks[i].dir != "" :: at.At(stacks[i].dir)
  }

  /** The deepest of the directories that strictly contain the file. */
  ghost predicate Owns(dirs: set<string>, d: string, abs: string)
    requires IsAbs(abs)
  {
    d in dirs && PathUnder(d, abs) && forall e :: e in dirs && PathUnder(e, abs) ==> Components(e) <= Components(d)
  }

  ghost predicate OwnsOne(at: Place, dirs: set<string>, d: string, changed: seq<string>)
    requires at.Valid()
  {
    exists i :: 0 <= i < |changed| && Owns(dirs, d, at.At(changed[i]))
  }

  /** Directories that contain the same file lie on one line, and on it the longer string is the deeper directory. */
  lemma LongerIsDeeper(d: string, e: string, abs: string)
    requires Canonical(d) && Canonical(e) && IsAbs(abs) && PathUnder(d, abs) && PathUnder(e, abs)
    ensures Components(d) <= Components(e) || Components(e) <= Components(d)
    ensures |d| <= |e| <==> Components(d) <= Components(e)
    ensures Components(d) == Components(e) ==> d == e
  {
    UnderIsAncestor(d, abs);
    UnderIsAncestor(e, abs);
    var a, b, t := Components(d), Components(e), Components(abs);
    assert a == t[..|a|] && b == t[..|b|];
    if |a| < |b| {
      assert a == b[..|a|];
      DeeperIsLonger(a, b);
    } else if |b| < |a| {
      assert b == a[..|b|];
      DeeperIsLonger(b, a);
    }
  }

  lemma OwnerUnique(dirs: set<string>, d: string, e: string, abs: string)
    requires IsAbs(abs) && (forall x :: x in dirs ==> Canonical(x)) && Owns(dirs, d, abs) && Owns(dirs, e, abs)
    ensures d == e
  {
    LongerIsDeeper(d, e, abs);
    assert Components(d) <= Components(e) && Components(e) <= Components(d);
  }

  /** The deepest directory found so far: empty when none contains the file. */
  ghost predicate Best(dirs: seq<string>, best: string, abs: string)
    requires IsAbs(abs)
  {
    if best == "" then forall k :: 0 <= k < |dirs| ==> !PathUnder(dirs[k], abs)
    else best in dirs && PathUnder(best, abs) && forall k :: 0 <= k < |dirs| && PathUnder(dirs[k], abs) ==>
        Components(dirs[k]) <= Components(best)
  }

  lemma BestStep(dirs: seq<string>, best: string, dir: string, abs: string)
    requires IsAbs(abs) && Canonical(dir) && (forall x :: x in dirs ==> Canonical(x)) && Best(dirs, best, abs)
    ensures Best(dirs + [dir], if PathUnder(dir, abs) && |dir| > |best| then dir else best, abs)
  {
    if best != "" && PathUnder(dir, abs) {
      LongerIsDeeper(dir, best, abs);
      hide PathUnder, Canonical;
      forall k | 0 <= k < |dirs| && PathUnder(dirs[k], abs) && |dir| > |best|
          ensures Components(dirs[k]) <= Components(dir) {
        assert Components(dirs[k]) <= Components(best) && Components(best) <= Components(dir);
      }
    }
  }

  method OwnerOf(dirs: seq<string>, abs: string) returns (best: string)
    requires IsAbs(abs) && forall x :: x in dirs ==> Canonical(x)
    ensures Best(dirs, best, abs)
  {
    hide PathUnder, Canonical;
    best := "";
    for i := 0 to |dirs|
      invariant Best(dirs[..i], best, abs)
    {
      assert dirs[..i + 1] == dirs[..i] + [dirs[i]];
      BestStep(dirs[..i], best, dirs[i], abs);
      if PathUnder(dirs[i], abs) && |dirs[i]| > |best| {
        best := dirs[i];
      }
    }
    assert dirs[..|dirs|] == dirs;
  }

  /** The directories of the stacks, each once, in order of first appearance. */
  method StackDirs(at: Place, stacks: seq<Stack>) returns (dirs: seq<string>)
    requires at.Valid()
    ensures forall d :: d in dirs <==> d in DirsOf(at, stacks)
    ensures forall i, j :: 0 <= i < j < |dirs| ==> dirs[i] != dirs[j]
  {
    hide Place.At, Canonical;
    dirs := [];
    for i := 0 to |stacks|
      invariant forall d :: d in dirs <==> exists k :: 0 <= k < i && stacks[k].dir != "" && at.At(stacks[k].dir) == d
      invariant forall i, j :: 0 <= i < j < |dirs| ==> dirs[i] != dirs[j]
    {
      if stacks[i].dir != "" {
        var dir := at.At(stacks[i].dir);
        if dir !in dirs {
          dirs := dirs + [dir];
        }
      }
    }
  }

  ghost function TouchedAmong(at: Place, dirs: set<string>, changed: seq<string>): set<string>
    requires at.Valid()
  {
    set d | d in dirs && OwnsOne(at, dirs, d, changed)
  }

  ghost function TouchedDirs(at: Place, stacks: seq<Stack>, changed: seq<string>): set<string>
    requires at.Valid()
  {
    TouchedAmong(at, DirsOf(at, stacks), changed)
  }

  /** Each changed file touches the directory that owns it, whatever the order of the stacks. */
  method TouchedStackDirs(at: Place, stacks: seq<Stack>, changed: seq<string>) returns (touched: set<string>)
    requires at.Valid()
    ensures touched == TouchedDirs(at, stacks, changed)
  {
    hide Place.At, Canonical, Best, DirsOf, TouchedAmong;
    var dirs := StackDirs(at, stacks);
    ghost var all := DirsOf(at, stacks);
    touched := {};
    NothingTouched(at, all);
    for i := 0 to |changed|
      invariant touched == TouchedAmong(at, all, changed[..i])
    {
      var best := OwnerOf(dirs, at.At(changed[i]));
      assert changed[..i + 1] == changed[..i] + [changed[i]];
      OneMoreTouched(at, all, dirs, changed[..i], changed[i], best);
      if best != "" {
        touched := touched + {best};
      }
    }
    assert changed[..|changed|] == changed;
  }

  lemma NothingTouched(at: Place, dirs: set<string>)
    requires at.Valid()
    ensures TouchedAmong(at, dirs, []) == {}
  {
  }

  lemma OneMoreTouched(at: Place, all: set<string>, dirs: seq<string>, changed: seq<string>, f: string, best: string)
    requires at.Valid() && (forall d :: d in dirs <==> d in all) && (forall d :: d in all ==> Canonical(d))
        && Best(dirs, best, at.At(f))
    ensures TouchedAmong(at, all, changed + [f]) == TouchedAmong(at, all, changed) + if best != "" then {best} else {}
  {
    hide Place.At, Canonical, Best;
    BestOwns(all, dirs, best, at.At(f));
    forall d ensures d in TouchedAmong(at, all, changed + [f]) <==>
        d in TouchedAmong(at, all, changed) || (best != "" && d == best) {
      OwnsSnoc(at, all, d, changed, f);
      hide OwnsOne, Owns;
    }
  }

  lemma OwnsSnoc(at: Place, dirs: set<string>, d: string, changed: seq<string>, f: string)
    requires at.Valid()
    ensures OwnsOne(at, dirs, d, changed + [f]) <==> OwnsOne(at, dirs, d, changed) || Owns(dirs, d, at.At(f))
  {
    hide Owns, Place.At, Canonical;
    var all := changed + [f];
    if OwnsOne(at, dirs, d, changed) {
      var i :| 0 <= i < |changed| && Owns(dirs, d, at.At(changed[i]));
      assert all[i] == changed[i];
    }
    assert all[|changed|] == f;
  }

  lemma BestOwns(all: set<string>, dirs: seq<string>, best: string, abs: string)
    requires IsAbs(abs) && (forall d :: d in dirs <==> d in all) && (forall x :: x in all ==> Canonical(x))
        && Best(dirs, best, abs)
    ensures forall d :: Owns(all, d, abs) <==> best != "" && d == best
    ensures best != "" ==> best in all
  {
    forall d ensures Owns(all, d, abs) <==> best != "" && d == best {
      if Owns(all, d, abs) {
        assert best != "";
        forall e | e in all && PathUnder(e, abs) ensures Components(e) <= Components(best) { assert e in dirs; }
        OwnerUnique(all, d, best, abs);
      } else if best != "" {
        assert best in all;
        forall e | e in all && PathUnder(e, abs) ensures Components(e) <= Components(best) { assert e in dirs; }
      }
    }
  }

  /*** The stacks a change reaches ***/

  /** How one stack is weighed: by ownership of a changed file, else by its inputs. */
  ghost function WeightOf(at: Place, load: Loader, parse: Parser, tree: Tree, touched: set<string>,
      changed: seq<string>, s: Stack): Protocol.Weight
    requires at.Valid()
  {
    if s.dir == "" || at.At(s.dir) in touched then Protocol.Touched
    else if load(tree, s.files, s.project).None? then Protocol.Undetermined
    else if InputsRelevant(at, load, parse, tree, s.files, s.project, changed) then Protocol.Touched
    else Protocol.Untouched
  }

  /** stackInputsMatch, and what the loop of filterChanged tests before it. */
  method WeighStack(at: Place, load: Loader, parse: Parser, tree: Tree, touched: set<string>, changed: seq<string>,
      s: Stack) returns (w: Protocol.Weight)
    requires at.Valid()
    ensures w == WeightOf(at, load, parse, tree, touched, changed, s)
  {
    hide InputsOf, DependencyChanged, Place.At, Canonical;
    if s.dir == "" { return Protocol.Touched; }
    if at.At(s.dir) in touched { return Protocol.Touched; }
    var p := load(tree, s.files, s.project);
    if p.None? { return Protocol.Undetermined; }
    var inputs := Compute(tree, parse, p.value);
    if !inputs.complete { return Protocol.Touched; }
    var reached := FindChangedDependency(at, inputs.paths, changed);
    w := if reached then Protocol.Touched else Protocol.Untouched;
  }

  /** filterChanged: the weights it gives are the ones the protocol acts on. */
  method FilterChanged(at: Place, load: Loader, parse: Parser, tree: Tree, stacks: seq<Stack>, previous: seq<Stack>,
      changed: seq<string>, ghost env: Protocol.Env)
    returns (kept: seq<Stack>, undetermined: bool)
    requires at.Valid()
    requires forall s :: env.weigh(s) == WeightOf(at, load, parse, tree, TouchedDirs(at, stacks + previous, changed),
        changed, s)
    ensures (kept, undetermined) == Protocol.Weighed(env, stacks)
    ensures !undetermined ==> forall s :: s in stacks && s !in kept ==>
      WeightOf(at, load, parse, tree, TouchedDirs(at, stacks + previous, changed), changed, s) == Protocol.Untouched
  {
    hide TouchedDirs, WeightOf;
    var touched := TouchedStackDirs(at, stacks + previous, changed);
    kept, undetermined := [], false;
    for i := 0 to |stacks|
      invariant (kept, undetermined) == Protocol.Weighed(env, stacks[..i])
    {
      assert stacks[..i + 1][..i] == stacks[..i];
      var w := WeighStack(at, load, parse, tree, touched, changed, stacks[i]);
      assert w == env.weigh(stacks[i]);
      match w
      case Touched => kept := kept + [stacks[i]];
      case Undetermined => undetermined := true;
      case Untouched =>
    }
    assert stacks[..|stacks|] == stacks;
    Protocol.WeighedMeans(env, stacks);
    assert forall s :: env.weigh(s) == WeightOf(at, load, parse, tree, touched, changed, s);
  }

  /** A stack that is Untouched, as every stack left out is when nothing is undetermined, owns no changed file, and its
      project, inputs and every file at or below them are the same in the tree before the change. */
  lemma LeftOutIsUnchanged(at: Place, load: Loader, parse: Parser, before: Tree, after: Tree, dirs: set<string>,
      changed: seq<string>, s: Stack)
    requires at.Valid() && DependsOnInputs(load, parse, after, before, s.files, s.project)
        && ListsDifferences(at, before, after, changed)
    requires s.dir != "" ==> at.At(s.dir) in dirs
    requires WeightOf(at, load, parse, after, TouchedAmong(at, dirs, changed), changed, s) == Protocol.Untouched
    ensures s.dir != "" && forall i :: 0 <= i < |changed| ==> !Owns(dirs, at.At(s.dir), at.At(changed[i]))
    ensures SameProject(load, parse, after, before, s.files, s.project)
  {
    hide DependsOnInputs, InputsRelevant, SameProject, Owns, Place.At, Canonical;
    assert ListsDifferences(at, after, before, changed);
    IrrelevantIsSame(at, load, parse, after, before, s.files, s.project, changed);
    forall i | 0 <= i < |changed| ensures !Owns(dirs, at.At(s.dir), at.At(changed[i])) {
      assert !OwnsOne(at, dirs, at.At(s.dir), changed);
    }
  }
}
