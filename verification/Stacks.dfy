/** Compose stacks and the stack-set helpers of internal/reconcile/reconcile.go, as functions. */
module Stacks {
  import opened Records

  type Path = string

  /** A name with no directory and no files is a stack known only by its project name. */
  datatype Stack = Stack(project: Name, dir: Path, files: seq<Path>)

  function Named(n: Name): Stack {
    Stack(n, "", [])
  }

  function Names(stacks: seq<Stack>): (r: seq<Name>)
    ensures |r| == |stacks|
    ensures forall i :: 0 <= i < |r| ==> r[i] == stacks[i].project
  {
    seq(|stacks|, i requires 0 <= i < |stacks| => stacks[i].project)
  }

  function NameSet(stacks: seq<Stack>): (r: set<Name>)
    ensures forall i :: 0 <= i < |stacks| ==> stacks[i].project in r
  {
    set n | n in Names(stacks)
  }

  lemma NameSetConcat(a: seq<Stack>, b: seq<Stack>)
    ensures NameSet(a + b) == NameSet(a) + NameSet(b)
  {
    assert Names(a + b) == Names(a) + Names(b);
  }

  /** deployedStacks: the discovered stacks plus every last-healthy name not among them, once each. */
  function Deployed(healthy: seq<Name>, discovered: seq<Stack>): (r: seq<Stack>)
    ensures NameSet(r) == NameSet(discovered) + (set n | n in healthy)
    ensures discovered <= r
  {
    AddMissing(discovered, healthy)
  }

  function AddMissing(out: seq<Stack>, names: seq<Name>): (r: seq<Stack>)
    ensures NameSet(r) == NameSet(out) + (set n | n in names)
    ensures out <= r
  {
    if names == [] then out
    else
      var rest, last := names[..|names| - 1], names[|names| - 1];
      var r := AddMissing(out, rest);
      NameSetConcat(r, [Named(last)]);
      assert Names([Named(last)]) == [last];
      assert (set n | n in names) == (set n | n in rest) + {last} by { assert names == rest + [last]; }
      if last in NameSet(r) then r else r + [Named(last)]
  }

  /** The last stack of that name, or the bare name. */
  function Lookup(stacks: seq<Stack>, n: Name): (r: Stack)
    ensures r.project == n
    ensures n in NameSet(stacks) ==> r in stacks
  {
    if stacks == [] then Named(n)
    else if stacks[|stacks| - 1].project == n then stacks[|stacks| - 1]
    else Lookup(stacks[..|stacks| - 1], n)
  }

  /** restrictToNames: one stack per requested name; no names means no restriction. */
  function Restrict(stacks: seq<Stack>, names: seq<Name>): (r: seq<Stack>)
    ensures names == [] ==> r == stacks
    ensures names != [] ==> Names(r) == names
  {
    if names == [] then stacks
    else seq(|names|, i requires 0 <= i < |names| => Lookup(stacks, names[i]))
  }

  /** The stacks of `a` whose name is (keep) or is not (!keep) one of `names`, in order. */
  function Select(a: seq<Stack>, names: set<Name>, keep: bool): (r: seq<Stack>)
    ensures NameSet(r) == if keep then NameSet(a) * names else NameSet(a) - names
  {
    if a == [] then []
    else
      var rest := Select(a[1..], names, keep);
      NameSetCons(a[0], a[1..]);
      NameSetCons(a[0], rest);
      assert a == [a[0]] + a[1..];
      if (a[0].project in names) == keep then [a[0]] + rest else rest
  }

  lemma NameSetCons(s: Stack, rest: seq<Stack>)
    ensures NameSet([s] + rest) == {s.project} + NameSet(rest)
  {
    NameSetConcat([s], rest);
    assert Names([s]) == [s.project];
  }

  /** intersectByProjectName */
  function Intersect(a: seq<Stack>, b: seq<Stack>): seq<Stack> {
    Select(a, NameSet(b), true)
  }

  /** vanishedStacks: what was there before and is not there now. */
  function Vanished(previous: seq<Stack>, current: seq<Stack>): seq<Stack> {
    Select(previous, NameSet(current), false)
  }
}
