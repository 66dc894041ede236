/** The bytes that fingerprint hashes can be read back in one way only. */
module Fingerprint {
  import opened Wrappers
  import opened Paths
  import opened Inputs
  import opened Discovery

  /*** Decimal lengths ***/

  function Digit(d: nat): (c: char)
    requires d < 10
    ensures c != '\0'
  {
    '0' + d as char
  }

  function Decimal(n: nat): (s: string)
    ensures s != "" && NulFree(s)
  {
    if n < 10 then [Digit(n)] else Decimal(n / 10) + [Digit(n % 10)]
  }

  lemma {:induction false} DecimalInjective(m: nat, n: nat)
    requires Decimal(m) == Decimal(n)
    ensures m == n
  {
    var s, t := Decimal(m), Decimal(n);
    assert s[|s| - 1] == Digit(m % 10) && t[|t| - 1] == Digit(n % 10);
    assert m % 10 == n % 10;
    if m >= 10 && n >= 10 {
      assert s[..|s| - 1] == Decimal(m / 10) && t[..|t| - 1] == Decimal(n / 10);
      DecimalInjective(m / 10, n / 10);
    } else {
      assert m >= 10 ==> |s| >= 2;
      assert n >= 10 ==> |t| >= 2;
    }
  }

  /*** The encoding ***/

  function EncodeFile(f: File): string {
    "f\0" + (f.name + NUL + (Decimal(|f.data|) + NUL + f.data))
  }

  function EncodeFiles(fs: seq<File>): string {
    if fs == [] then "" else EncodeFile(fs[0]) + EncodeFiles(fs[1..])
  }

  function EncodeSub(dir: string, s: Sub): string {
    "d\0" + (JoinPath(dir, s.name) + NUL + EncodeFiles(s.files))
  }

  function EncodeSubs(dir: string, subs: seq<Sub>): string {
    if subs == [] then "" else EncodeSub(dir, subs[0]) + EncodeSubs(dir, subs[1..])
  }

  function Encode(dir: string, v: View): string {
    EncodeFiles(v.root) + EncodeSubs(dir, v.subs)
  }

  predicate FilesOk(fs: seq<File>) {
    forall i :: 0 <= i < |fs| ==> EntryName(fs[i].name)
  }

  predicate SubsOk(subs: seq<Sub>) {
    forall i :: 0 <= i < |subs| ==> EntryName(subs[i].name) && FilesOk(subs[i].files)
  }

  /** What follows the files of a directory: nothing, or the next directory. */
  predicate Rest(s: string) {
    s == "" || s[0] == 'd'
  }

  lemma {:induction false} CutUnique(a: string, s: string, b: string, t: string)
    requires NulFree(a) && NulFree(b) && a + NUL + s == b + NUL + t
    ensures a == b && s == t
  {
    var u, v := a + NUL + s, b + NUL + t;
    assert u[|a|] == '\0' && v[|b|] == '\0';
    assert |a| == |b|;
    assert a == u[..|a|] && b == v[..|b|] && s == u[|a| + 1..] && t == v[|b| + 1..];
  }

  /** One file is read back, and what follows it. */
  lemma FileUnique(f: File, x: string, g: File, y: string)
    requires EntryName(f.name) && EntryName(g.name) && EncodeFile(f) + x == EncodeFile(g) + y
    ensures f == g && x == y
  {
    var p, q := f.data + x, g.data + y;
    var s, t := Decimal(|f.data|) + NUL + p, Decimal(|g.data|) + NUL + q;
    assert EncodeFile(f) + x == "f\0" + (f.name + NUL + s);
    assert EncodeFile(g) + y == "f\0" + (g.name + NUL + t);
    assert f.name + NUL + s == ("f\0" + (f.name + NUL + s))[2..];
    assert g.name + NUL + t == ("f\0" + (g.name + NUL + t))[2..];
    CutUnique(f.name, s, g.name, t);
    CutUnique(Decimal(|f.data|), p, Decimal(|g.data|), q);
    DecimalInjective(|f.data|, |g.data|);
    assert f.data == p[..|f.data|] && g.data == q[..|g.data|] && x == p[|f.data|..] && y == q[|g.data|..];
  }

  lemma {:induction false} FilesUnique(fs: seq<File>, x: string, gs: seq<File>, y: string)
    requires FilesOk(fs) && FilesOk(gs) && Rest(x) && Rest(y) && EncodeFiles(fs) + x == EncodeFiles(gs) + y
    ensures fs == gs && x == y
  {
    hide EncodeFile;
    FilesStart(fs, x);
    FilesStart(gs, y);
    if fs != [] && gs != [] {
      var u, v := EncodeFiles(fs[1..]) + x, EncodeFiles(gs[1..]) + y;
      assert EncodeFiles(fs) + x == EncodeFile(fs[0]) + u;
      assert EncodeFiles(gs) + y == EncodeFile(gs[0]) + v;
      FileUnique(fs[0], u, gs[0], v);
      FilesUnique(fs[1..], x, gs[1..], y);
      assert fs == [fs[0]] + fs[1..] && gs == [gs[0]] + gs[1..];
    }
  }

  lemma FilesStart(fs: seq<File>, x: string)
    ensures fs == [] ==> EncodeFiles(fs) + x == x
    ensures fs != [] ==> EncodeFiles(fs) + x != "" && (EncodeFiles(fs) + x)[0] == 'f'
  {
    if fs != [] {
      assert EncodeFile(fs[0])[0] == 'f';
    }
  }

  /*** Names under one directory ***/

  lemma {:induction false} ReduceAppend(rooted: bool, parts: seq<string>, name: string)
    requires Plain([name])
    ensures Reduce(rooted, parts + [name]) == Reduce(rooted, parts) + [name]
  {
    assert (parts + [name])[..|parts|] == parts;
    assert [name][0] == name;
  }

  lemma {:induction false} SplitAppend(dir: string, name: string)
    requires '/' !in name
    ensures Split(dir + "/" + name) == Split(dir) + [name]
  {
    if dir == "" {
      assert dir + "/" + name == "" + "/" + name;
      SplitSep("", name);
      SplitWord(name);
    } else {
      SplitAppend(dir[1..], name);
      assert (dir + "/" + name)[1..] == dir[1..] + "/" + name;
    }
  }

  lemma {:induction false} ReduceNoSlash(rooted: bool, parts: seq<string>)
    requires forall i :: 0 <= i < |parts| ==> '/' !in parts[i]
    ensures forall i :: 0 <= i < |Reduce(rooted, parts)| ==> '/' !in Reduce(rooted, parts)[i]
  {
    if parts != [] {
      ReduceNoSlash(rooted, parts[..|parts| - 1]);
    }
  }

  /** The path of an entry spells its directory's components and then its name. */
  lemma EntryPath(dir: string, name: string)
    requires EntryName(name)
    ensures var all := Components(dir) + [name];
      && JoinPath(dir, name) == (if IsAbs(dir) then "/" + Join(all) else Join(all))
      && forall i :: 0 <= i < |all| ==> '/' !in all[i]
  {
    assert Plain([name]) && [name][0] == name;
    ReduceNoSlash(IsAbs(dir), Split(dir));
    if dir == "" {
      SplitWord(name);
      assert Split(name) == [] + [name];
      ReduceAppend(false, [], name);
      assert Reduce(false, [""]) == [] by { assert [""][..0] == []; }
    } else {
      SplitAppend(dir, name);
      ReduceAppend(IsAbs(dir), Split(dir), name);
      assert IsAbs(dir + "/" + name) == IsAbs(dir);
    }
  }

  lemma EntryPathInjective(dir: string, a: string, b: string)
    requires EntryName(a) && EntryName(b) && JoinPath(dir, a) == JoinPath(dir, b)
    ensures a == b
  {
    EntryPath(dir, a);
    EntryPath(dir, b);
    var s, t := Components(dir) + [a], Components(dir) + [b];
    assert Join(s) == Join(t) by {
      assert IsAbs(dir) ==> ("/" + Join(s))[1..] == Join(s) && ("/" + Join(t))[1..] == Join(t);
    }
    SplitJoin(s);
    SplitJoin(t);
    assert s[|s| - 1] == a && t[|t| - 1] == b;
  }

  lemma {:induction false} JoinNulFree(parts: seq<string>)
    requires |parts| > 0 && forall i :: 0 <= i < |parts| ==> NulFree(parts[i])
    ensures NulFree(Join(parts))
  {
    if |parts| > 1 {
      JoinNulFree(parts[1..]);
    }
  }

  lemma {:induction false} SplitNulFree(s: string)
    requires NulFree(s)
    ensures forall i :: 0 <= i < |Split(s)| ==> NulFree(Split(s)[i])
  {
    if s != "" {
      SplitNulFree(s[1..]);
    }
  }

  lemma {:induction false} ReduceNulFree(rooted: bool, parts: seq<string>)
    requires forall i :: 0 <= i < |parts| ==> NulFree(parts[i])
    ensures forall i :: 0 <= i < |Reduce(rooted, parts)| ==> NulFree(Reduce(rooted, parts)[i])
  {
    if parts != [] {
      ReduceNulFree(rooted, parts[..|parts| - 1]);
    }
  }

  lemma EntryPathNulFree(dir: string, name: string)
    requires NulFree(dir) && EntryName(name)
    ensures NulFree(JoinPath(dir, name))
  {
    EntryPath(dir, name);
    SplitNulFree(dir);
    ReduceNulFree(IsAbs(dir), Split(dir));
    JoinNulFree(Components(dir) + [name]);
  }

  /*** The whole ***/

  lemma SubsStart(dir: string, subs: seq<Sub>)
    ensures Rest(EncodeSubs(dir, subs)) && (subs != [] ==> EncodeSubs(dir, subs) != "")
  {
    if subs != [] {
      assert EncodeSub(dir, subs[0])[0] == 'd';
    }
  }

  lemma SubUnique(dir: string, s: Sub, x: string, t: Sub, y: string)
    requires NulFree(dir) && EntryName(s.name) && EntryName(t.name) && FilesOk(s.files) && FilesOk(t.files) && Rest(x)
        && Rest(y)
    requires EncodeSub(dir, s) + x == EncodeSub(dir, t) + y
    ensures s == t && x == y
  {
    hide JoinPath, EncodeFiles, FilesOk, EntryName, NulFree, Rest;
    var a, b := JoinPath(dir, s.name), JoinPath(dir, t.name);
    var u, v := EncodeFiles(s.files) + x, EncodeFiles(t.files) + y;
    assert EncodeSub(dir, s) + x == "d\0" + (a + NUL + u);
    assert EncodeSub(dir, t) + y == "d\0" + (b + NUL + v);
    assert a + NUL + u == ("d\0" + (a + NUL + u))[2..];
    assert b + NUL + v == ("d\0" + (b + NUL + v))[2..];
    EntryPathNulFree(dir, s.name);
    EntryPathNulFree(dir, t.name);
    CutUnique(a, u, b, v);
    EntryPathInjective(dir, s.name, t.name);
    FilesUnique(s.files, x, t.files, y);
  }

  lemma {:induction false} SubsUnique(dir: string, ss: seq<Sub>, ts: seq<Sub>)
    requires NulFree(dir) && SubsOk(ss) && SubsOk(ts) && EncodeSubs(dir, ss) == EncodeSubs(dir, ts)
    ensures ss == ts
  {
    SubsStart(dir, ss);
    SubsStart(dir, ts);
    hide EncodeSub, EntryName, FilesOk;
    if ss != [] && ts != [] {
      SubsStart(dir, ss[1..]);
      SubsStart(dir, ts[1..]);
      SubUnique(dir, ss[0], EncodeSubs(dir, ss[1..]), ts[0], EncodeSubs(dir, ts[1..]));
      SubsUnique(dir, ss[1..], ts[1..]);
      assert ss == [ss[0]] + ss[1..] && ts == [ts[0]] + ts[1..];
    }
  }

  predicate ViewOk(v: View) {
    FilesOk(v.root) && SubsOk(v.subs)
  }

  /** Two views of one directory with the same encoding are the same view. */
  lemma EncodingInjective(dir: string, v: View, w: View)
    requires NulFree(dir) && ViewOk(v) && ViewOk(w) && Encode(dir, v) == Encode(dir, w)
    ensures v == w
  {
    SubsStart(dir, v.subs);
    SubsStart(dir, w.subs);
    FilesUnique(v.root, EncodeSubs(dir, v.subs), w.root, EncodeSubs(dir, w.subs));
    SubsUnique(dir, v.subs, w.subs);
  }

  /*** Views of a directory ***/

  lemma {:induction false} FilesOfOk(rules: Rules, disk: Disk, dir: string, entries: seq<Entry>)
    requires (forall i :: 0 <= i < |entries| ==> EntryName(entries[i].name)) && FilesOf(rules, disk, dir, entries).Some?
    ensures FilesOk(FilesOf(rules, disk, dir, entries).value)
  {
    if entries != [] {
      FilesOfOk(rules, disk, dir, entries[..|entries| - 1]);
    }
  }

  lemma {:induction false} SubsOfOk(rules: Rules, disk: Disk, dir: string, entries: seq<Entry>)
    requires Sane(disk) && (forall i :: 0 <= i < |entries| ==> EntryName(entries[i].name))
        && SubsOf(rules, disk, dir, entries).Some?
    ensures SubsOk(SubsOf(rules, disk, dir, entries).value)
  {
    if entries != [] {
      var n := |entries| - 1;
      SubsOfOk(rules, disk, dir, entries[..n]);
      if SubDir(entries[n]) {
        var sub := JoinPath(dir, entries[n].name);
        FilesOfOk(rules, disk, sub, disk.list(sub).value);
      }
    }
  }

  lemma ViewOfOk(rules: Rules, disk: Disk, dir: string)
    requires Sane(disk) && ViewOf(rules, disk, dir).Some?
    ensures NulFree(dir) && ViewOk(ViewOf(rules, disk, dir).value)
  {
    FilesOfOk(rules, disk, dir, disk.list(dir).value);
    SubsOfOk(rules, disk, dir, disk.list(dir).value);
  }
}
