/** Lexical file paths: the parts of path/filepath that weighing a change relies on, on Unix strings. */
module Paths {

  import opened Wrappers

  /*** Strings cut at the separator ***/

  function Split(s: string): (r: seq<string>)
    ensures |r| > 0
    ensures forall i :: 0 <= i < |r| ==> '/' !in r[i]
  {
    if s == "" then [""]
    else
      var r := Split(s[1..]);
      if s[0] == '/' then [""] + r else [[s[0]] + r[0]] + r[1..]
  }

  function Join(parts: seq<string>): string
    requires |parts| > 0
  {
    if |parts| == 1 then parts[0] else parts[0] + "/" + Join(parts[1..])
  }

  lemma {:induction false} SplitWord(a: string)
    requires '/' !in a
    ensures Split(a) == [a]
  {
    if a != "" {
      SplitWord(a[1..]);
      assert a == [a[0]] + a[1..];
    }
  }

  lemma {:induction false} SplitSep(a: string, x: string)
    requires '/' !in a
    ensures Split(a + "/" + x) == [a] + Split(x)
  {
    if a == "" {
      assert (a + "/" + x)[1..] == x;
    } else {
      SplitSep(a[1..], x);
      assert (a + "/" + x)[1..] == a[1..] + "/" + x;
      assert a == [a[0]] + a[1..];
    }
  }

  /** Splitting undoes joining, for names without a separator. */
  lemma {:induction false} SplitJoin(parts: seq<string>)
    requires |parts| > 0 && forall i :: 0 <= i < |parts| ==> '/' !in parts[i]
    ensures Split(Join(parts)) == parts
  {
    if |parts| == 1 {
      SplitWord(parts[0]);
    } else {
      SplitJoin(parts[1..]);
      SplitSep(parts[0], Join(parts[1..]));
    }
  }

  /*** Clean ***/

  predicate IsAbs(p: string) {
    p != "" && p[0] == '/'
  }

  /** What one component does to the components kept so far. */
  function Push(rooted: bool, out: seq<string>, part: string): seq<string> {
    if part == "" || part == "." then out
    else if part != ".." then out + [part]
    else if out != [] && out[|out| - 1] != ".." then out[..|out| - 1]
    else if rooted then out
    else out + [".."]
  }

  function Reduce(rooted: bool, parts: seq<string>): seq<string> {
    if parts == [] then [] else Push(rooted, Reduce(rooted, parts[..|parts| - 1]), parts[|parts| - 1])
  }

  /** The components that Clean keeps. */
  function Components(p: string): seq<string> {
    Reduce(IsAbs(p), Split(p))
  }

  function Rooted(names: seq<string>): string {
    if names == [] then "/" else "/" + Join(names)
  }

  function Clean(p: string): string {
    if IsAbs(p) then Rooted(Components(p))
    else if Components(p) == [] then "." else Join(Components(p))
  }

  function JoinPath(dir: string, p: string): string {
    if dir == "" && p == "" then ""
    else if dir == "" then Clean(p)
    else if p == "" then Clean(dir)
    else Clean(dir + "/" + p)
  }

  /** filepath.Dir */
  function Dir(p: string): string {
    var parts := Split(p);
    if |parts| == 1 then "." else Clean(Join(parts[..|parts| - 1]) + "/")
  }

  /** A dot stays, two dots go up, and up from the root is the root. */
  lemma {:induction false} ReduceSteps(rooted: bool, parts: seq<string>)
    ensures Reduce(rooted, parts + ["."]) == Reduce(rooted, parts)
    ensures var out := Reduce(rooted, parts);
      && (rooted ==>
            Reduce(rooted, parts + [".."]) == if out == [] || out[|out| - 1] == ".." then out else out[..|out| - 1])
      && (!rooted && out != [] && out[|out| - 1] != ".." ==> Reduce(rooted, parts + [".."]) == out[..|out| - 1])
  {
    assert (parts + ["."])[..|parts|] == parts && (parts + [".."])[..|parts|] == parts;
  }

  predicate Plain(names: seq<string>) {
    forall i :: 0 <= i < |names| ==> names[i] != "" && names[i] != "." && names[i] != ".." && '/' !in names[i]
  }

  /** The one spelling of an absolute path: no empty, dot or dot-dot component. */
  predicate Canonical(p: string) {
    IsAbs(p) && Plain(Components(p)) && p == Rooted(Components(p))
  }

  lemma {:induction false} ReducePlain(parts: seq<string>)
    requires forall i :: 0 <= i < |parts| ==> '/' !in parts[i]
    ensures Plain(Reduce(true, parts))
  {
    if parts != [] {
      ReducePlain(parts[..|parts| - 1]);
    }
  }

  lemma {:induction false} ReduceKeeps(names: seq<string>)
    requires Plain(names)
    ensures Reduce(true, names) == names
  {
    if names != [] {
      var n := |names| - 1;
      ReduceKeeps(names[..n]);
      assert names == names[..n] + [names[n]];
    }
  }

  lemma {:induction false} ReduceEmptyHead(parts: seq<string>)
    ensures Reduce(true, [""] + parts) == Reduce(true, parts)
  {
    var whole := [""] + parts;
    if parts == [] {
      assert whole[..0] == [];
    } else {
      var n := |parts| - 1;
      ReduceEmptyHead(parts[..n]);
      assert whole[..n + 1] == [""] + parts[..n];
    }
  }

  /** The spelling determines the names and back. */
  lemma NamesOfRooted(names: seq<string>)
    requires Plain(names)
    ensures IsAbs(Rooted(names)) && Components(Rooted(names)) == names && Canonical(Rooted(names))
  {
    if names == [] {
      assert Split("/") == ["", ""];
      assert Reduce(true, ["", ""]) == Push(true, Reduce(true, [""]), "") by { assert ["", ""][..1] == [""]; }
    } else {
      assert "/" + Join(names) == "" + "/" + Join(names);
      SplitSep("", Join(names));
      SplitJoin(names);
      ReduceEmptyHead(names);
      ReduceKeeps(names);
    }
  }

  /** Clean gives the canonical spelling of an absolute path, and keeps its names. */
  lemma CleanCanonical(p: string)
    requires IsAbs(p)
    ensures Canonical(Clean(p)) && Components(Clean(p)) == Components(p)
  {
    ReducePlain(Split(p));
    NamesOfRooted(Components(p));
  }

  lemma JoinCanonical(dir: string, p: string)
    requires IsAbs(dir)
    ensures Canonical(JoinPath(dir, p))
  {
    if p == "" {
      CleanCanonical(dir);
    } else {
      CleanCanonical(dir + "/" + p);
    }
  }

  lemma DirCanonical(p: string)
    requires IsAbs(p)
    ensures Canonical(Dir(p))
  {
    var parts := Split(p);
    assert p == "" + "/" + p[1..];
    SplitSep("", p[1..]);
    assert parts[0] == "" && |parts| >= 2;
    var up := parts[..|parts| - 1];
    assert up[0] == "";
    assert IsAbs(Join(up) + "/") by {
      if |up| > 1 { assert Join(up) == "" + "/" + Join(up[1..]); }
    }
    CleanCanonical(Join(up) + "/");
  }

  /*** Under ***/

  function Common(a: seq<string>, b: seq<string>): (k: nat)
    ensures k <= |a| && k <= |b| && a[..k] == b[..k]
    ensures k < |a| && k < |b| ==> a[k] != b[k]
  {
    if a == [] || b == [] || a[0] != b[0] then 0
    else
      var k := 1 + Common(a[1..], b[1..]);
      assert a[..k] == [a[0]] + a[1..][..k - 1] && b[..k] == [b[0]] + b[1..][..k - 1];
      k
  }

  function Ups(n: nat): (r: seq<string>)
    ensures |r| == n && forall i :: 0 <= i < n ==> r[i] == ".."
  {
    seq(n, _ => "..")
  }

  /** filepath.Rel to an absolute path. */
  function Rel(base: string, target: string): Option<string>
    requires IsAbs(target)
  {
    if !IsAbs(base) then None
    else
      var b, t := Components(base), Components(target);
      if b == t then Some(".")
      else
        var k := Common(b, t);
        assert k == |b| && k == |t| ==> b == t by { assert b[..|b|] == b && t[..|t|] == t; }
        Some(Join(Ups(|b| - k) + t[k..]))
  }

  predicate HasPrefix(s: string, pre: string) {
    pre <= s
  }

  /** pathUnder */
  predicate PathUnder(dir: string, abs: string)
    requires IsAbs(abs)
  {
    var rel := Rel(dir, abs);
    rel.Some? && rel.value != "." && rel.value != ".." && !HasPrefix(rel.value, "../")
  }

  lemma ClimbingPath(parts: seq<string>)
    requires |parts| > 0 && parts[0] == ".."
    ensures Join(parts) == ".." || HasPrefix(Join(parts), "../")
  {
    if |parts| > 1 {
      var rest := Join(parts[1..]);
      assert Join(parts) == ".." + "/" + rest;
      assert "../" + rest == ".." + "/" + rest;
    }
  }

  lemma DescendingPath(parts: seq<string>)
    requires |parts| > 0 && Plain(parts)
    ensures Join(parts) != "." && Join(parts) != ".." && !HasPrefix(Join(parts), "../")
  {
    SplitJoin(parts);
    SplitWord(".");
    SplitWord("..");
    var s := Join(parts);
    if HasPrefix(s, "../") {
      assert s == ".." + "/" + s[3..];
      SplitSep("..", s[3..]);
    }
  }

  predicate Ancestor(a: seq<string>, b: seq<string>) {
    |a| < |b| && a <= b
  }

  /** pathUnder holds exactly of the strict ancestors, component by component. */
  lemma UnderIsAncestor(dir: string, abs: string)
    requires IsAbs(abs)
    ensures PathUnder(dir, abs) <==> IsAbs(dir) && Ancestor(Components(dir), Components(abs))
  {
    if IsAbs(dir) {
      var b, t := Components(dir), Components(abs);
      if b != t {
        var k := Common(b, t);
        var parts := Ups(|b| - k) + t[k..];
        ReducePlain(Split(abs));
        if k < |b| {
          assert parts[0] == "..";
          ClimbingPath(parts);
          assert k < |t| ==> b[k] != t[k];
        } else {
          assert b[..k] == b && b <= t;
          assert b != t ==> k < |t| by { assert t[..|t|] == t; }
          assert parts == t[k..];
          DescendingPath(parts);
        }
      }
    }
  }

  /** Among canonical directories, the longer string lies deeper on one line of ancestors. */
  lemma {:induction false} DeeperIsLonger(a: seq<string>, b: seq<string>)
    requires Plain(b) && Ancestor(a, b)
    ensures |Rooted(a)| < |Rooted(b)|
  {
    if |a| > 0 {
      assert a[0] == b[0] && a[1..] <= b[1..];
      if |a| > 1 { DeeperIsLonger(a[1..], b[1..]); }
    } else {
      assert |Join(b)| > 0 by { if |b| > 1 { assert |Join(b)| >= |b[0]| + 1; } }
    }
  }

  /*** Paths of the repository ***/

  /** resolveUnderRepo, `cwd` being the process's working directory. */
  function ResolveUnderRepo(cwd: string, repo: string, p: string): string {
    var q := if IsAbs(p) then p else JoinPath(repo, p);
    if IsAbs(q) then Clean(q) else JoinPath(cwd, q)
  }

  lemma ResolvedIsCanonical(cwd: string, repo: string, p: string)
    requires IsAbs(cwd)
    ensures Canonical(ResolveUnderRepo(cwd, repo, p))
  {
    var q := if IsAbs(p) then p else JoinPath(repo, p);
    if IsAbs(q) {
      CleanCanonical(q);
    } else {
      JoinCanonical(cwd, q);
    }
  }
}
