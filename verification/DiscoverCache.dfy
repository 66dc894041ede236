/** Discover and its cache as they run, and their agreement with discovery that never caches. */
module DiscoverCaching {
  import opened Wrappers
  import opened Paths
  import opened Inputs
  import opened Stacks
  import opened Ordering
  import opened Discovery
  import opened Fingerprint

  /*** Names do not collide ***/

  lemma NamedBeforeIsWeak()
    ensures WeakOrder(NamedBefore)
  {
    forall a: Stack, b: Stack | NamedBefore(a, b) ensures !NamedBefore(b, a) {
      if NamedBefore(b, a) {
        LessTransitive(a.project, b.project, a.project);
        LessIrreflexive(a.project);
      }
    }
    forall a: Stack, b: Stack, c: Stack | !NamedBefore(b, a) && !NamedBefore(c, b) ensures !NamedBefore(c, a) {
      if NamedBefore(c, a) {
        LessTotal(a.project, b.project);
        LessTotal(b.project, c.project);
        if a.project != b.project {
          LessTransitive(c.project, a.project, b.project);
        }
      }
    }
  }

  predicate DistinctProjects(stacks: seq<Stack>) {
    forall i, j :: 0 <= i < j < |stacks| ==> stacks[i].project != stacks[j].project
  }

  predicate IncreasingProjects(stacks: seq<Stack>) {
    forall i, j :: 0 <= i < j < |stacks| ==> Less(stacks[i].project, stacks[j].project)
  }

  /** Comparing neighbours is enough once the list is sorted. */
  lemma {:induction false} NeighboursDecide(s: seq<Stack>, i: nat, j: nat)
    requires Ordered(s, NamedBefore) && NoCollision(s) && i < j < |s|
    ensures Less(s[i].project, s[j].project)
    decreases j - i
  {
    LessTotal(s[j].project, s[j - 1].project);
    assert !NamedBefore(s[j], s[j - 1]);
    if i < j - 1 {
      NeighboursDecide(s, i, j - 1);
      LessTransitive(s[i].project, s[j - 1].project, s[j].project);
    }
  }

  /** Discovery succeeds exactly when it found stacks whose names all differ, and then returns them in name order. */
  lemma SettleMeans(found: seq<Stack>)
    ensures Settle(found).Ok? <==> found != [] && DistinctProjects(found)
    ensures Settle(found).Ok? ==>
        multiset(Settle(found).value) == multiset(found) && IncreasingProjects(Settle(found).value)
  {
    var s := SortBy(found, NamedBefore);
    NamedBeforeIsWeak();
    SortOrdered(found, NamedBefore);
    if NoCollision(s) {
      forall i, j | 0 <= i < j < |s| ensures Less(s[i].project, s[j].project) && s[i].project != s[j].project {
        NeighboursDecide(s, i, j);
        LessIrreflexive(s[i].project);
      }
    } else {
      assert !DistinctProjects(s);
    }
    DistinctAfterPermuting(s, found);
    DistinctAfterPermuting(found, s);
  }

  lemma DistinctAfterPermuting(s: seq<Stack>, t: seq<Stack>)
    requires multiset(s) == multiset(t)
    ensures DistinctProjects(s) ==> DistinctProjects(t)
  {
    forall i, j | DistinctProjects(s) && 0 <= i < j < |t| ensures t[i].project != t[j].project {
      if t[i] == t[j] {
        TwiceInMultiset(t, i, j);
        OnceInMultiset(s, t[i]);
      } else {
        assert t[i] in multiset(t) && t[j] in multiset(t);
        assert t[i] in s && t[j] in s;
      }
    }
  }

  lemma TwiceInMultiset(t: seq<Stack>, i: nat, j: nat)
    requires i < j < |t| && t[i] == t[j]
    ensures multiset(t)[t[i]] >= 2
  {
    assert t == t[..j] + t[j..];
    assert t[i] in t[..j] && t[j] in t[j..];
  }

  lemma {:induction false} OnceInMultiset(s: seq<Stack>, x: Stack)
    requires DistinctProjects(s)
    ensures multiset(s)[x] <= 1
  {
    if s != [] {
      assert s == [s[0]] + s[1..];
      OnceInMultiset(s[1..], x);
      if s[0] == x {
        assert x !in s[1..];
      }
    }
  }

  /*** Loops ***/

  lemma {:induction false} ListErrStays(rules: Rules, disk: Disk, dir: string, entries: seq<Entry>, i: nat)
    requires i <= |entries| && ListEntries(rules, disk, dir, entries[..i]).Err?
    ensures ListEntries(rules, disk, dir, entries) == ListEntries(rules, disk, dir, entries[..i])
    decreases |entries|
  {
    if i == |entries| {
      assert entries[..i] == entries;
    } else {
      var init := entries[..|entries| - 1];
      assert init[..i] == entries[..i];
      ListErrStays(rules, disk, dir, init, i);
    }
  }

  lemma {:induction false} SubsErrStays(rules: Rules, disk: Disk, dir: string, base: string, entries: seq<Entry>,
      i: nat)
    requires i <= |entries| && DiscoverSubs(rules, disk, dir, base, entries[..i]).Err?
    ensures DiscoverSubs(rules, disk, dir, base, entries) == DiscoverSubs(rules, disk, dir, base, entries[..i])
    decreases |entries|
  {
    if i == |entries| {
      assert entries[..i] == entries;
    } else {
      var init := entries[..|entries| - 1];
      assert init[..i] == entries[..i];
      SubsErrStays(rules, disk, dir, base, init, i);
    }
  }

  method ComposeFilesIn(rules: Rules, disk: Disk, dir: string, entries: seq<Entry>) returns (r: Outcome<Listing>)
    ensures r == ListEntries(rules, disk, dir, entries)
  {
    var l := Listing([], false);
    for i := 0 to |entries|
      invariant ListEntries(rules, disk, dir, entries[..i]) == Ok(l)
    {
      assert entries[..i + 1][..i] == entries[..i];
      var e := entries[i];
      if !Candidate(rules, e) { continue; }
      var path := JoinPath(dir, e.name);
      var data := disk.read(path);
      if data.None? {
        ListErrStays(rules, disk, dir, entries, i + 1);
        return Err(Unreadable(path));
      }
      var check := CheckFile(rules, data.value);
      if check.Malformed? {
        ListErrStays(rules, disk, dir, entries, i + 1);
        return Err(Invalid(path));
      }
      if check.Compose? {
        l := Listing(l.files + [Ranked(MergeRank(rules, e.name), path)], l.workloads || check.workloads);
      }
    }
    assert entries[..|entries|] == entries;
    r := Ok(l);
  }

  method DiscoverAfresh(rules: Rules, disk: Disk, dir: string, base: string) returns (r: Outcome<seq<Stack>>)
    ensures r == Uncached(rules, disk, dir, base)
  {
    var entries := disk.list(dir);
    if entries.None? { return Err(Unreadable(dir)); }
    var root := ComposeFilesIn(rules, disk, dir, entries.value);
    if root.Err? { return Err(root.error); }
    var stacks := StackOf(base, dir, root.value);
    var subs := DiscoverInSubs(rules, disk, dir, base, entries.value);
    if subs.Err? { return subs; }
    r := Settle(stacks + subs.value);
  }

  method DiscoverInSubs(rules: Rules, disk: Disk, dir: string, base: string, entries: seq<Entry>)
      returns (r: Outcome<seq<Stack>>)
    ensures r == DiscoverSubs(rules, disk, dir, base, entries)
  {
    var stacks: seq<Stack> := [];
    for i := 0 to |entries|
      invariant DiscoverSubs(rules, disk, dir, base, entries[..i]) == Ok(stacks)
    {
      assert entries[..i + 1][..i] == entries[..i];
      var e := entries[i];
      if !SubDir(e) { continue; }
      var sub := JoinPath(dir, e.name);
      var inside := disk.list(sub);
      if inside.None? {
        SubsErrStays(rules, disk, dir, base, entries, i + 1);
        return Err(Unreadable(sub));
      }
      var l := ComposeFilesIn(rules, disk, sub, inside.value);
      if l.Err? {
        SubsErrStays(rules, disk, dir, base, entries, i + 1);
        return Err(l.error);
      }
      stacks := stacks + StackOf(base + "-" + rules.suffix(e.name), sub, l.value);
    }
    assert entries[..|entries|] == entries;
    r := Ok(stacks);
  }

  /*** The fingerprint ***/

  type Hash = string -> string

  ghost predicate NoCollisions(hash: Hash) {
    forall x, y :: hash(x) == hash(y) ==> x == y
  }

  function PrintOf(rules: Rules, hash: Hash, disk: Disk, dir: string): Option<string> {
    var v := ViewOf(rules, disk, dir);
    if v.None? then None else Some(hash(Encode(dir, v.value)))
  }

  lemma {:induction false} EncodeFilesSnoc(fs: seq<File>, f: File)
    ensures EncodeFiles(fs + [f]) == EncodeFiles(fs) + EncodeFile(f)
  {
    hide EncodeFile;
    if fs == [] {
      assert fs + [f] == [f] && EncodeFiles([f]) == EncodeFile(f) + EncodeFiles([]);
    } else {
      EncodeFilesSnoc(fs[1..], f);
      assert (fs + [f])[1..] == fs[1..] + [f];
      assert EncodeFile(fs[0]) + (EncodeFiles(fs[1..]) + EncodeFile(f))
          == EncodeFile(fs[0]) + EncodeFiles(fs[1..]) + EncodeFile(f);
    }
  }

  lemma {:induction false} EncodeSubsSnoc(dir: string, subs: seq<Sub>, s: Sub)
    ensures EncodeSubs(dir, subs + [s]) == EncodeSubs(dir, subs) + EncodeSub(dir, s)
  {
    hide EncodeSub;
    if subs == [] {
      assert subs + [s] == [s] && EncodeSubs(dir, [s]) == EncodeSub(dir, s) + EncodeSubs(dir, []);
    } else {
      EncodeSubsSnoc(dir, subs[1..], s);
      assert (subs + [s])[1..] == subs[1..] + [s];
      var head, rest := EncodeSub(dir, subs[0]), EncodeSubs(dir, subs[1..]);
      assert head + (rest + EncodeSub(dir, s)) == head + rest + EncodeSub(dir, s);
    }
  }

  lemma {:induction false} FilesNoneStays(rules: Rules, disk: Disk, dir: string, entries: seq<Entry>, i: nat)
    requires i <= |entries| && FilesOf(rules, disk, dir, entries[..i]).None?
    ensures FilesOf(rules, disk, dir, entries).None?
    decreases |entries|
  {
    if i == |entries| {
      assert entries[..i] == entries;
    } else {
      var init := entries[..|entries| - 1];
      assert init[..i] == entries[..i];
      FilesNoneStays(rules, disk, dir, init, i);
    }
  }

  lemma {:induction false} SubsNoneStays(rules: Rules, disk: Disk, dir: string, entries: seq<Entry>, i: nat)
    requires i <= |entries| && SubsOf(rules, disk, dir, entries[..i]).None?
    ensures SubsOf(rules, disk, dir, entries).None?
    decreases |entries|
  {
    if i == |entries| {
      assert entries[..i] == entries;
    } else {
      var init := entries[..|entries| - 1];
      assert init[..i] == entries[..i];
      SubsNoneStays(rules, disk, dir, init, i);
    }
  }

  /** The stream that hashing the files of a directory adds; None when one cannot be read. */
  method HashComposeFiles(rules: Rules, disk: Disk, dir: string, entries: seq<Entry>) returns (h: Option<string>)
    ensures h == var fs := FilesOf(rules, disk, dir, entries); if fs.None? then None else Some(EncodeFiles(fs.value))
  {
    var out := "";
    ghost var fs: seq<File> := [];
    hide EncodeFile;
    for i := 0 to |entries|
      invariant FilesOf(rules, disk, dir, entries[..i]) == Some(fs) && out == EncodeFiles(fs)
    {
      assert entries[..i + 1][..i] == entries[..i];
      var e := entries[i];
      if !Candidate(rules, e) { continue; }
      var data := disk.read(JoinPath(dir, e.name));
      if data.None? {
        FilesNoneStays(rules, disk, dir, entries, i + 1);
        return None;
      }
      EncodeFilesSnoc(fs, File(e.name, data.value));
      fs := fs + [File(e.name, data.value)];
      out := out + EncodeFile(File(e.name, data.value));
    }
    assert entries[..|entries|] == entries;
    h := Some(out);
  }

  method HashSubs(rules: Rules, disk: Disk, dir: string, entries: seq<Entry>) returns (h: Option<string>)
    ensures h == var subs := SubsOf(rules, disk, dir, entries);
        if subs.None? then None else Some(EncodeSubs(dir, subs.value))
  {
    var out := "";
    ghost var subs: seq<Sub> := [];
    for i := 0 to |entries|
      invariant SubsOf(rules, disk, dir, entries[..i]) == Some(subs) && out == EncodeSubs(dir, subs)
    {
      assert entries[..i + 1][..i] == entries[..i];
      var e := entries[i];
      if !SubDir(e) { continue; }
      var sub := JoinPath(dir, e.name);
      var inside := disk.list(sub);
      if inside.None? {
        SubsNoneStays(rules, disk, dir, entries, i + 1);
        return None;
      }
      var files := HashComposeFiles(rules, disk, sub, inside.value);
      if files.None? {
        SubsNoneStays(rules, disk, dir, entries, i + 1);
        return None;
      }
      ghost var s := Sub(e.name, FilesOf(rules, disk, sub, inside.value).value);
      EncodeSubsSnoc(dir, subs, s);
      subs := subs + [s];
      out := out + ("d\0" + (sub + NUL + files.value));
    }
    assert entries[..|entries|] == entries;
    h := Some(out);
  }

  method ComputePrint(rules: Rules, hash: Hash, disk: Disk, dir: string) returns (digest: Option<string>)
    ensures digest == PrintOf(rules, hash, disk, dir)
  {
    var entries := disk.list(dir);
    if entries.None? { return None; }
    var root := HashComposeFiles(rules, disk, dir, entries.value);
    if root.None? { return None; }
    var subs := HashSubs(rules, disk, dir, entries.value);
    if subs.None? { return None; }
    digest := Some(hash(root.value + subs.value));
  }

  /*** The cache ***/

  function Key(dir: string, base: string): string {
    dir + NUL + base
  }

  lemma KeyNotEmpty(dir: string, base: string)
    ensures Key(dir, base) != ""
  {
    assert Key(dir, base)[|dir|] == '\0';
  }

  /** What a filled cache remembers: the outcome for a directory that had this view. */
  ghost predicate Remembers(rules: Rules, hash: Hash, key: string, digest: string, stacks: seq<Stack>, dir: string,
      base: string, v: View) {
    NulFree(dir) && ViewOk(v) && key == Key(dir, base) && digest == hash(Encode(dir, v))
        && StacksOfView(rules, dir, base, v) == Ok(stacks)
  }

  /** A hit answers what discovery finds in the view the directory has now. */
  lemma HitIsRight(rules: Rules, hash: Hash, dir: string, base: string, now: View, stacks: seq<Stack>, dir': string,
      base': string, v: View)
    requires NoCollisions(hash) && NulFree(dir) && ViewOk(now)
    requires Remembers(rules, hash, Key(dir, base), hash(Encode(dir, now)), stacks, dir', base', v)
    ensures StacksOfView(rules, dir, base, now) == Ok(stacks)
  {
    CutUnique(dir, base, dir', base');
    EncodingInjective(dir, now, v);
  }

  /** Only successes are stored, so the error field of the original is always nil and has no counterpart here. */
  class DiscoverCache {
    var key: string
    var digest: string
    var stacks: seq<Stack>

    ghost predicate Valid(rules: Rules, hash: Hash)
      reads this
    {
      key == "" || exists dir, base, v :: Remembers(rules, hash, key, digest, stacks, dir, base, v)
    }

    constructor ()
      ensures forall rules, hash :: Valid(rules, hash)
    {
      key, digest, stacks := "", "", [];
    }

    /** Discover: the same as discovery without a cache, and only a success changes what is remembered. */
    method Discover(rules: Rules, hash: Hash, disk: Disk, dir: string, base: string) returns (r: Outcome<seq<Stack>>)
      requires Valid(rules, hash) && NoCollisions(hash) && Sane(disk)
      modifies this
      ensures Valid(rules, hash)
      ensures r == Uncached(rules, disk, dir, base)
      ensures r.Err? ==> key == old(key) && digest == old(digest) && stacks == old(stacks)
    {
      var fp := ComputePrint(rules, hash, disk, dir);
      KeyNotEmpty(dir, base);
      if fp.Some? && key == Key(dir, base) && digest == fp.value {
        ghost var dir', base', v :| Remembers(rules, hash, key, digest, stacks, dir', base', v);
        ViewOfOk(rules, disk, dir);
        HitIsRight(rules, hash, dir, base, ViewOf(rules, disk, dir).value, stacks, dir', base', v);
        DiscoverySeesView(rules, disk, dir, base);
        return Ok(stacks);
      }
      r := DiscoverAfresh(rules, disk, dir, base);
      if fp.Some? && r.Ok? {
        ViewOfOk(rules, disk, dir);
        DiscoverySeesView(rules, disk, dir, base);
        key, digest, stacks := Key(dir, base), fp.value, r.value;
        assert Remembers(rules, hash, key, digest, stacks, dir, base, ViewOf(rules, disk, dir).value);
      }
    }
  }

  datatype Call = Call(disk: Disk, dir: string, base: string)

  /** One process, any sequence of calls on any contents: every answer is what discovery without a cache gives. */
  method Serve(rules: Rules, hash: Hash, calls: seq<Call>) returns (answers: seq<Outcome<seq<Stack>>>)
    requires NoCollisions(hash) && forall i :: 0 <= i < |calls| ==> Sane(calls[i].disk)
    ensures |answers| == |calls|
    ensures forall i :: 0 <= i < |calls| ==> answers[i] == Uncached(rules, calls[i].disk, calls[i].dir, calls[i].base)
  {
    hide Uncached, Sane, NoCollisions;
    var cache := new DiscoverCache();
    answers := [];
    for i := 0 to |calls|
      invariant cache.Valid(rules, hash)
      invariant |answers| == i
      invariant forall k :: 0 <= k < i ==> answers[k] == Uncached(rules, calls[k].disk, calls[k].dir, calls[k].base)
    {
      var r := cache.Discover(rules, hash, calls[i].disk, calls[i].dir, calls[i].base);
      answers := answers + [r];
    }
  }
}
