/** The stack-set helpers of internal/reconcile/reconcile.go as the loops they are. */
module StackSets {
  import opened Records
  import opened Stacks
  import opened Protocol

  /** The set of project names each helper builds first. */
  method ProjectNames(stacks: seq<Stack>) returns (names: set<Name>)
    ensures names == NameSet(stacks)
  {
    names := {};
    for i := 0 to |stacks|
      invariant names == NameSet(stacks[..i])
    {
      assert stacks[..i + 1] == stacks[..i] + [stacks[i]];
      NameSetConcat(stacks[..i], [stacks[i]]);
      assert Names([stacks[i]]) == [stacks[i].project];
      names := names + {stacks[i].project};
    }
    assert stacks[..|stacks|] == stacks;
  }

  method DeployedStacks(healthy: seq<Name>, discovered: seq<Stack>) returns (out: seq<Stack>)
    ensures out == Deployed(healthy, discovered)
  {
    out := discovered;
    if |healthy| == 0 { return; }
    var seen := ProjectNames(discovered);
    for i := 0 to |healthy|
      invariant out == AddMissing(discovered, healthy[..i]) && seen == NameSet(out)
    {
      var name := healthy[i];
      assert healthy[..i + 1][..i] == healthy[..i];
      if name !in seen {
        AddedName(out, name);
        seen := seen + {name};
        out := out + [Named(name)];
      }
    }
    assert healthy[..|healthy|] == healthy;
  }

  lemma AddedName(out: seq<Stack>, name: Name)
    ensures NameSet(out + [Named(name)]) == NameSet(out) + {name}
  {
    NameSetConcat(out, [Named(name)]);
    assert Names([Named(name)]) == [name];
  }

  method RestrictToNames(stacks: seq<Stack>, names: seq<Name>) returns (out: seq<Stack>)
    ensures out == Restrict(stacks, names)
  {
    if |names| == 0 { return stacks; }
    var found: map<Name, Stack> := map[];
    for i := 0 to |stacks|
      invariant forall n :: n in found ==> found[n] == Lookup(stacks[..i], n)
      invariant forall n :: n !in found ==> Lookup(stacks[..i], n) == Named(n)
    {
      assert stacks[..i + 1] == stacks[..i] + [stacks[i]];
      found := found[stacks[i].project := stacks[i]];
    }
    assert stacks[..|stacks|] == stacks;
    out := [];
    for i := 0 to |names|
      invariant |out| == i
      invariant forall k :: 0 <= k < i ==> out[k] == Lookup(stacks, names[k])
    {
      var n := names[i];
      if n in found {
        out := out + [found[n]];
      } else {
        out := out + [Named(n)];
      }
    }
  }

  method SelectByName(a: seq<Stack>, b: seq<Stack>, keep: bool) returns (out: seq<Stack>)
    ensures out == Select(a, NameSet(b), keep)
  {
    hide Select, NameSet;
    var names := ProjectNames(b);
    out := [];
    assert a[0..] == a;
    for i := 0 to |a|
      invariant Select(a, names, keep) == out + Select(a[i..], names, keep)
    {
      SelectStep(a[i..], names, keep);
      assert a[i..][1..] == a[i + 1..];
      if (a[i].project in names) == keep {
        out := out + [a[i]];
      }
    }
    SelectStep(a[|a|..], names, keep);
  }

  lemma SelectStep(a: seq<Stack>, names: set<Name>, keep: bool)
    ensures Select(a, names, keep) ==
      if a == [] then [] else (if (a[0].project in names) == keep then [a[0]] else []) + Select(a[1..], names, keep)
  {
    hide NameSet, Names;
  }

  method IntersectByProjectName(a: seq<Stack>, b: seq<Stack>) returns (out: seq<Stack>)
    ensures out == Intersect(a, b)
  {
    out := SelectByName(a, b, true);
  }

  method VanishedStacks(previous: seq<Stack>, current: seq<Stack>) returns (gone: seq<Stack>)
    ensures gone == Vanished(previous, current)
  {
    gone := SelectByName(previous, current, false);
  }

  /** filterChanged's loop over the stacks, the weight of each given. */
  method KeepTouched(env: Env, stacks: seq<Stack>) returns (changed: seq<Stack>, undetermined: bool)
    ensures (changed, undetermined) == Weighed(env, stacks)
  {
    changed, undetermined := [], false;
    for i := 0 to |stacks|
      invariant (changed, undetermined) == Weighed(env, stacks[..i])
    {
      assert stacks[..i + 1][..i] == stacks[..i];
      match env.weigh(stacks[i])
      case Touched => changed := changed + [stacks[i]];
      case Undetermined => undetermined := true;
      case Untouched =>
    }
    assert stacks[..|stacks|] == stacks;
  }
}
