/** Which stacks discovery gives, which files each has, and in which order: said of names and contents alone. */
module StackFiles {
  import opened Wrappers
  import opened Paths
  import opened Inputs
  import opened Stacks
  import opened Ordering
  import opened Discovery
  import opened Fingerprint
  import opened DiscoverCaching

  /*** Names ***/

  /** The extension is what follows the last dot, with it; a name without a dot has none. */
  lemma {:induction false} ExtMeans(name: string)
    ensures HasSuffix(name, Ext(name))
    ensures '.' !in name ==> Ext(name) == ""
    ensures '.' in name ==> Ext(name) != "" && Ext(name)[0] == '.' && '.' !in Ext(name)[1..]
  {
    if '.' in name && !(name[0] == '.' && '.' !in name[1..]) {
      ExtMeans(name[1..]);
    }
  }

  function Stem(name: string): string {
    ExtMeans(name);
    name[..|name| - |Ext(name)|]
  }

  predicate IsBase(rules: Rules, name: string) {
    var n := rules.lower(name);
    n == "compose.yaml" || n == "compose.yml" || n == "docker-compose.yaml" || n == "docker-compose.yml"
  }

  predicate IsOverride(rules: Rules, name: string) {
    HasSuffix(Stem(rules.lower(name)), ".override")
  }

  lemma RankMeans(rules: Rules, name: string)
    ensures MergeRank(rules, name) == if IsBase(rules, name) then 0 else if IsOverride(rules, name) then 2 else 1
  {
    hide Ext, HasSuffix;
    var n := rules.lower(name);
    ExtMeans(n);
    BaseMeans(n);
    assert Stem(n) == n[..|n| - |Ext(n)|];
  }

  lemma BaseMeans(n: string)
    ensures n in BASE_NAMES <==>
      n == "compose.yaml" || n == "compose.yml" || n == "docker-compose.yaml" || n == "docker-compose.yml"
  {
  }

  /*** The files of a directory ***/

  /** The entry is a compose file: not hidden, named like YAML, a regular file, and with one valid compose document. */
  predicate IsComposeFile(rules: Rules, disk: Disk, dir: string, e: Entry) {
    && !HasPrefix(e.name, ".")
    && (rules.lower(Ext(e.name)) == ".yaml" || rules.lower(Ext(e.name)) == ".yml")
    && e.kind == IsFile
    && disk.read(JoinPath(dir, e.name)).Some?
    && HasOneDoc(rules, disk.read(JoinPath(dir, e.name)).value)
  }

  /** A key that a compose file may have at its top level. */
  predicate IsTopLevel(k: string) {
    || k == "configs" || k == "include" || k == "models" || k == "name" || k == "networks"
    || k == "secrets" || k == "services" || k == "version" || k == "volumes"
    || HasPrefix(k, "x-")
  }

  predicate HasOneDoc(rules: Rules, data: Bytes) {
    var docs := rules.parse(data);
    && docs.Some? && |docs.value| == 1 && rules.valid(docs.value[0])
    && var d := docs.value[0];
       && d != map[]
       && ("services" in d || "include" in d || forall k :: k in d ==> IsTopLevel(k))
  }

  /** It also gives work: services or includes, and not empty ones. */
  predicate GivesWork(rules: Rules, disk: Disk, dir: string, e: Entry)
    requires IsComposeFile(rules, disk, dir, e)
  {
    var d := rules.parse(disk.read(JoinPath(dir, e.name)).value).value[0];
    || ("services" in d && d["services"].Mapping? && d["services"].fields != map[])
    || ("include" in d && d["include"].List? && d["include"].items != [])
  }

  function RankedOf(rules: Rules, dir: string, e: Entry): Ranked {
    Ranked(MergeRank(rules, e.name), JoinPath(dir, e.name))
  }

  lemma {:induction false} ListMeans(rules: Rules, disk: Disk, dir: string, entries: seq<Entry>)
    requires ListEntries(rules, disk, dir, entries).Ok?
    ensures var l := ListEntries(rules, disk, dir, entries).value;
      && (forall r :: r in l.files <==>
          exists e :: e in entries && IsComposeFile(rules, disk, dir, e) && r == RankedOf(rules, dir, e))
      && (l.workloads <==>
          exists e :: e in entries && IsComposeFile(rules, disk, dir, e) && GivesWork(rules, disk, dir, e))
  {
    hide IsComposeFile, GivesWork, RankedOf, ListEntries;
    if entries == [] {
      ListNone(rules, disk, dir);
    } else {
      var n := |entries| - 1;
      var e := entries[n];
      ListStep(rules, disk, dir, entries);
      ListMeans(rules, disk, dir, entries[..n]);
      var l' := ListEntries(rules, disk, dir, entries).value;
      assert forall x :: x in entries <==> x in entries[..n] || x == e by { assert entries == entries[..n] + [e]; }
      forall r ensures r in l'.files <==>
          exists x :: x in entries && IsComposeFile(rules, disk, dir, x) && r == RankedOf(rules, dir, x) {
      }
    }
  }

  lemma ListNone(rules: Rules, disk: Disk, dir: string)
    ensures ListEntries(rules, disk, dir, []) == Ok(Listing([], false))
  {
  }

  lemma ListStep(rules: Rules, disk: Disk, dir: string, entries: seq<Entry>)
    requires entries != [] && ListEntries(rules, disk, dir, entries).Ok?
    ensures var n := |entries| - 1; var e := entries[n];
      && ListEntries(rules, disk, dir, entries[..n]).Ok?
      && var l, l' := ListEntries(rules, disk, dir, entries[..n]).value, ListEntries(rules, disk, dir, entries).value;
         if IsComposeFile(rules, disk, dir, e) then
           l' == Listing(l.files + [RankedOf(rules, dir, e)], l.workloads || GivesWork(rules, disk, dir, e))
         else l' == l
  {
    var n := |entries| - 1;
    var e := entries[n];
    var data := disk.read(JoinPath(dir, e.name));
    CandidateMeans(rules, e);
    if data.Some? {
      CheckMeans(rules, data.value);
    }
    hide HasPrefix, Candidate, CheckFile, JoinPath, MergeRank, HasOneDoc, IsTopLevel, Ext;
  }

  lemma CandidateMeans(rules: Rules, e: Entry)
    ensures Candidate(rules, e) <==>
      && !HasPrefix(e.name, ".") && e.kind == IsFile
      && (rules.lower(Ext(e.name)) == ".yaml" || rules.lower(Ext(e.name)) == ".yml")
  {
    hide Ext, HasPrefix;
  }

  lemma CheckMeans(rules: Rules, data: Bytes)
    ensures CheckFile(rules, data).Compose? <==> HasOneDoc(rules, data)
    ensures HasOneDoc(rules, data) ==>
      var d := rules.parse(data).value[0];
      CheckFile(rules, data).workloads <==>
        || ("services" in d && d["services"].Mapping? && d["services"].fields != map[])
        || ("include" in d && d["include"].List? && d["include"].items != [])
  {
    LooksMeans(rules, data);
    hide LooksLikeCompose, IsTopLevel, HasPrefix;
  }

  lemma LooksMeans(rules: Rules, data: Bytes)
    ensures var docs := rules.parse(data);
      HasOneDoc(rules, data) <==>
        docs.Some? && |docs.value| == 1 && rules.valid(docs.value[0]) && LooksLikeCompose(docs.value[0])
  {
    hide HasPrefix;
    assert forall k :: k in TOP_LEVEL_KEYS || HasPrefix(k, "x-") <==> IsTopLevel(k);
  }

  predicate NoRepeats<T(==)>(s: seq<T>) {
    forall i, j :: 0 <= i < j < |s| ==> s[i] != s[j]
  }

  lemma {:induction false} ListNoRepeats(rules: Rules, disk: Disk, dir: string, entries: seq<Entry>)
    requires ListEntries(rules, disk, dir, entries).Ok?
    requires forall i :: 0 <= i < |entries| ==> EntryName(entries[i].name)
    requires forall i, j :: 0 <= i < j < |entries| ==> entries[i].name != entries[j].name
    ensures NoRepeats(ListEntries(rules, disk, dir, entries).value.files)
  {
    if entries != [] {
      var n := |entries| - 1;
      ListStep(rules, disk, dir, entries);
      ListNoRepeats(rules, disk, dir, entries[..n]);
      ListMeans(rules, disk, dir, entries[..n]);
      var l := ListEntries(rules, disk, dir, entries[..n]).value;
      hide IsComposeFile, GivesWork, ListEntries, EntryName, JoinPath, MergeRank;
      forall r | r in l.files ensures r != RankedOf(rules, dir, entries[n]) {
        var e :| e in entries[..n] && IsComposeFile(rules, disk, dir, e) && r == RankedOf(rules, dir, e);
        NamesApart(dir, e.name, entries[n].name);
      }
      if IsComposeFile(rules, disk, dir, entries[n]) {
        NoRepeatsSnoc(l.files, RankedOf(rules, dir, entries[n]));
      }
    }
  }

  lemma NoRepeatsSnoc<T>(s: seq<T>, x: T)
    requires NoRepeats(s) && x !in s
    ensures NoRepeats(s + [x])
  {
  }

  lemma NamesApart(dir: string, a: string, b: string)
    requires EntryName(a) && EntryName(b) && a != b
    ensures JoinPath(dir, a) != JoinPath(dir, b)
  {
    hide JoinPath, EntryName;
    if JoinPath(dir, a) == JoinPath(dir, b) {
      EntryPathInjective(dir, a, b);
    }
  }

  lemma {:induction false} OnceEach<T>(s: seq<T>, x: T)
    requires NoRepeats(s)
    ensures multiset(s)[x] <= 1
  {
    if s != [] {
      assert s == [s[0]] + s[1..];
      OnceEach(s[1..], x);
      if s[0] == x {
        assert x !in s[1..];
      }
    }
  }

  lemma NoRepeatsPermuted<T>(s: seq<T>, t: seq<T>)
    requires multiset(s) == multiset(t) && NoRepeats(s)
    ensures NoRepeats(t)
  {
    forall i, j | 0 <= i < j < |t| ensures t[i] != t[j] {
      OnceEach(s, t[i]);
      assert t == t[..j] + t[j..];
      assert t[i] in t[..j] && t[j] in t[j..];
    }
  }

  /*** Their order ***/

  lemma RankedBeforeIsWeak()
    ensures WeakOrder(RankedBefore)
  {
    forall a: Ranked, b: Ranked | RankedBefore(a, b) ensures !RankedBefore(b, a) {
      if RankedBefore(b, a) {
        LessTransitive(a.path, b.path, a.path);
        LessIrreflexive(a.path);
      }
    }
    forall a: Ranked, b: Ranked, c: Ranked | !RankedBefore(b, a) && !RankedBefore(c, b) ensures !RankedBefore(c, a) {
      if RankedBefore(c, a) {
        LessTotal(a.path, b.path);
        LessTotal(b.path, c.path);
        if a.rank == b.rank == c.rank && a.path != b.path {
          LessTransitive(c.path, a.path, b.path);
        }
      }
    }
  }

  /** These files stand in merge order: a base file before every other, an override after every file that is none, and
      otherwise by name. */
  ghost predicate InMergeOrder(rules: Rules, dir: string, files: seq<string>) {
    forall i, j, a, b ::
      0 <= i < j < |files| && files[i] == JoinPath(dir, a) && files[j] == JoinPath(dir, b)
      && EntryName(a) && EntryName(b) ==>
      && (IsBase(rules, b) ==> IsBase(rules, a))
      && (IsOverride(rules, a) && !IsBase(rules, a) ==> IsOverride(rules, b) && !IsBase(rules, b))
      && (IsBase(rules, a) == IsBase(rules, b) && IsOverride(rules, a) == IsOverride(rules, b) ==>
          Less(files[i], files[j]))
  }

  /** What the files of a stack are: the compose files of its directory, each once, in merge order. */
  ghost predicate RightFiles(rules: Rules, disk: Disk, s: Stack) {
    && disk.list(s.dir).Some?
    && (forall f :: f in s.files <==>
        exists e :: e in disk.list(s.dir).value && IsComposeFile(rules, disk, s.dir, e) && f == JoinPath(s.dir, e.name))
    && NoRepeats(s.files)
    && InMergeOrder(rules, s.dir, s.files)
    && exists e ::
      e in disk.list(s.dir).value && IsComposeFile(rules, disk, s.dir, e) && GivesWork(rules, disk, s.dir, e)
  }

  lemma StackOfMeans(rules: Rules, disk: Disk, project: string, dir: string, s: Stack)
    requires Sane(disk) && disk.list(dir).Some? && ListEntries(rules, disk, dir, disk.list(dir).value).Ok?
    requires s in StackOf(project, dir, ListEntries(rules, disk, dir, disk.list(dir).value).value)
    ensures s.project == project && s.dir == dir && RightFiles(rules, disk, s)
  {
    var entries := disk.list(dir).value;
    var l := ListEntries(rules, disk, dir, entries).value;
    ListMeans(rules, disk, dir, entries);
    ListNoRepeats(rules, disk, dir, entries);
    RankedBeforeIsWeak();
    SortOrdered(l.files, RankedBefore);
    var sorted := SortBy(l.files, RankedBefore);
    NoRepeatsPermuted(l.files, sorted);
    assert forall r :: r in sorted <==> r in l.files by {
      assert forall r :: r in sorted <==> r in multiset(sorted);
      assert forall r :: r in l.files <==> r in multiset(l.files);
    }
    SortedFiles(rules, disk, dir, entries, sorted, s.files);
    hide IsComposeFile, GivesWork, InMergeOrder;
  }

  lemma PathDecides(rules: Rules, disk: Disk, dir: string, entries: seq<Entry>, a: Ranked, b: Ranked)
    requires forall i :: 0 <= i < |entries| ==> EntryName(entries[i].name)
    requires exists e :: e in entries && IsComposeFile(rules, disk, dir, e) && a == RankedOf(rules, dir, e)
    requires exists e :: e in entries && IsComposeFile(rules, disk, dir, e) && b == RankedOf(rules, dir, e)
    ensures a.path == b.path ==> a == b
  {
    hide IsComposeFile, EntryName, JoinPath, MergeRank;
    var d :| d in entries && IsComposeFile(rules, disk, dir, d) && a == RankedOf(rules, dir, d);
    var e :| e in entries && IsComposeFile(rules, disk, dir, e) && b == RankedOf(rules, dir, e);
    if a.path == b.path {
      EntryPathInjective(dir, d.name, e.name);
    }
  }

  lemma SortedFiles(rules: Rules, disk: Disk, dir: string, entries: seq<Entry>, sorted: seq<Ranked>, files: seq<string>)
    requires forall i :: 0 <= i < |entries| ==> EntryName(entries[i].name)
    requires forall r :: r in sorted <==>
        exists e :: e in entries && IsComposeFile(rules, disk, dir, e) && r == RankedOf(rules, dir, e)
    requires NoRepeats(sorted) && Ordered(sorted, RankedBefore)
    requires |files| == |sorted| && forall i :: 0 <= i < |files| ==> files[i] == sorted[i].path
    ensures forall f :: f in files <==>
        exists e :: e in entries && IsComposeFile(rules, disk, dir, e) && f == JoinPath(dir, e.name)
    ensures NoRepeats(files) && InMergeOrder(rules, dir, files)
  {
    hide IsComposeFile, EntryName, JoinPath, IsBase, IsOverride, MergeRank;
    forall f ensures f in files <==>
        exists e :: e in entries && IsComposeFile(rules, disk, dir, e) && f == JoinPath(dir, e.name) {
      if f in files {
        var i :| 0 <= i < |files| && files[i] == f;
        assert sorted[i] in sorted;
      }
      if e :| e in entries && IsComposeFile(rules, disk, dir, e) && f == JoinPath(dir, e.name) {
        assert RankedOf(rules, dir, e) in sorted;
        var i :| 0 <= i < |sorted| && sorted[i] == RankedOf(rules, dir, e);
        assert files[i] == f;
      }
    }
    forall i, a | 0 <= i < |sorted| && sorted[i].path == JoinPath(dir, a) && EntryName(a)
        ensures sorted[i].rank == MergeRank(rules, a) {
      assert sorted[i] in sorted;
      var e :| e in entries && IsComposeFile(rules, disk, dir, e) && sorted[i] == RankedOf(rules, dir, e);
      EntryPathInjective(dir, a, e.name);
    }
    forall i, j | 0 <= i < j < |sorted| ensures files[i] != files[j] {
      assert sorted[i] in sorted && sorted[j] in sorted;
      PathDecides(rules, disk, dir, entries, sorted[i], sorted[j]);
    }
    forall i, j, a, b | 0 <= i < j < |files| && files[i] == JoinPath(dir, a) && files[j] == JoinPath(dir, b)
        && EntryName(a) && EntryName(b)
      ensures IsBase(rules, b) ==> IsBase(rules, a)
      ensures IsOverride(rules, a) && !IsBase(rules, a) ==> IsOverride(rules, b) && !IsBase(rules, b)
      ensures IsBase(rules, a) == IsBase(rules, b) && IsOverride(rules, a) == IsOverride(rules, b) ==>
          Less(files[i], files[j])
    {
      RankMeans(rules, a);
      RankMeans(rules, b);
      LessTotal(files[i], files[j]);
      assert !RankedBefore(sorted[j], sorted[i]);
    }
  }

  /*** The stacks ***/

  /** The stack is the compose directory's own, or that of a subdirectory that is not hidden. */
  predicate Originates(rules: Rules, disk: Disk, dir: string, base: string, s: Stack)
    requires disk.list(dir).Some?
  {
    || (s.project == base && s.dir == dir)
    || (exists e :: e in disk.list(dir).value && IsSubStack(rules, dir, base, e, s))
  }

  predicate IsSubStack(rules: Rules, dir: string, base: string, e: Entry, s: Stack) {
    e.kind == IsDir && !HasPrefix(e.name, ".") && s.project == base + "-" + rules.suffix(e.name)
        && s.dir == JoinPath(dir, e.name)
  }

  lemma {:induction false} SubsMeans(rules: Rules, disk: Disk, dir: string, base: string, entries: seq<Entry>, s: Stack)
    requires Sane(disk) && DiscoverSubs(rules, disk, dir, base, entries).Ok?
        && s in DiscoverSubs(rules, disk, dir, base, entries).value
    ensures RightFiles(rules, disk, s) && exists e :: e in entries && IsSubStack(rules, dir, base, e, s)
  {
    var n := |entries| - 1;
    var e := entries[n];
    hide RightFiles, ListEntries, Sane, StackOf, JoinPath;
    if s in DiscoverSubs(rules, disk, dir, base, entries[..n]).value {
      SubsMeans(rules, disk, dir, base, entries[..n], s);
      var x :| x in entries[..n] && IsSubStack(rules, dir, base, x, s);
      assert x in entries;
    } else {
      StackOfMeans(rules, disk, base + "-" + rules.suffix(e.name), JoinPath(dir, e.name), s);
      assert IsSubStack(rules, dir, base, e, s);
    }
  }

  /** Every stack that discovery gives belongs to the compose directory or one of its visible subdirectories, is named
      after it, and has exactly the compose files of that directory, each once, in merge order. */
  lemma StacksAreRight(rules: Rules, disk: Disk, dir: string, base: string, s: Stack)
    requires Sane(disk) && Uncached(rules, disk, dir, base).Ok? && s in Uncached(rules, disk, dir, base).value
    ensures disk.list(dir).Some? && Originates(rules, disk, dir, base, s) && RightFiles(rules, disk, s)
  {
    var entries := disk.list(dir).value;
    var root := ListEntries(rules, disk, dir, entries).value;
    var subs := DiscoverSubs(rules, disk, dir, base, entries).value;
    var found := StackOf(base, dir, root) + subs;
    SettleMeans(found);
    hide Settle, ListEntries, DiscoverSubs, StackOf, RightFiles, Sane;
    assert s in found by { assert s in multiset(Uncached(rules, disk, dir, base).value); }
    if s in StackOf(base, dir, root) {
      StackOfMeans(rules, disk, base, dir, s);
    } else {
      SubsMeans(rules, disk, dir, base, entries, s);
    }
  }

  /*** None is missed ***/

  lemma StackOfExists(rules: Rules, disk: Disk, project: string, dir: string, e: Entry)
    requires disk.list(dir).Some? && ListEntries(rules, disk, dir, disk.list(dir).value).Ok?
    requires e in disk.list(dir).value && IsComposeFile(rules, disk, dir, e) && GivesWork(rules, disk, dir, e)
    ensures var l := ListEntries(rules, disk, dir, disk.list(dir).value).value;
      StackOf(project, dir, l) == [Stack(project, dir, MergeOrder(l.files))]
  {
    ListMeans(rules, disk, dir, disk.list(dir).value);
    hide IsComposeFile, GivesWork, ListEntries;
    assert RankedOf(rules, dir, e) in ListEntries(rules, disk, dir, disk.list(dir).value).value.files;
  }

  lemma {:induction false} SubsExist(rules: Rules, disk: Disk, dir: string, base: string, entries: seq<Entry>,
      sub: Entry, e: Entry)
    requires DiscoverSubs(rules, disk, dir, base, entries).Ok? && sub in entries && sub.kind == IsDir
        && !HasPrefix(sub.name, ".")
    requires var d := JoinPath(dir, sub.name);
      disk.list(d).Some? && e in disk.list(d).value && IsComposeFile(rules, disk, d, e) && GivesWork(rules, disk, d, e)
    ensures exists s :: s in DiscoverSubs(rules, disk, dir, base, entries).value && IsSubStack(rules, dir, base, sub, s)
  {
    var n := |entries| - 1;
    hide ListEntries, IsComposeFile, GivesWork, MergeOrder, JoinPath;
    if sub in entries[..n] {
      SubsExist(rules, disk, dir, base, entries[..n], sub, e);
      var s :| s in DiscoverSubs(rules, disk, dir, base, entries[..n]).value && IsSubStack(rules, dir, base, sub, s);
      assert s in DiscoverSubs(rules, disk, dir, base, entries).value;
    } else {
      assert entries[n] == sub;
      var d, project := JoinPath(dir, sub.name), base + "-" + rules.suffix(sub.name);
      StackOfExists(rules, disk, project, d, e);
      var l := ListEntries(rules, disk, d, disk.list(d).value).value;
      var s := Stack(project, d, MergeOrder(l.files));
      assert IsSubStack(rules, dir, base, sub, s);
      assert s in StackOf(project, d, l);
    }
  }

  /** Every visible subdirectory with a compose file that gives work has its stack, when discovery succeeds. */
  lemma NoStackIsMissed(rules: Rules, disk: Disk, dir: string, base: string, sub: Entry, e: Entry)
    requires Uncached(rules, disk, dir, base).Ok? && sub in disk.list(dir).value && sub.kind == IsDir
        && !HasPrefix(sub.name, ".")
    requires var d := JoinPath(dir, sub.name);
      disk.list(d).Some? && e in disk.list(d).value && IsComposeFile(rules, disk, d, e) && GivesWork(rules, disk, d, e)
    ensures exists s :: s in Uncached(rules, disk, dir, base).value && IsSubStack(rules, dir, base, sub, s)
  {
    var entries := disk.list(dir).value;
    SubsExist(rules, disk, dir, base, entries, sub, e);
    var root := ListEntries(rules, disk, dir, entries).value;
    var subs := DiscoverSubs(rules, disk, dir, base, entries).value;
    SettleMeans(StackOf(base, dir, root) + subs);
    hide Settle, ListEntries, DiscoverSubs, StackOf, IsComposeFile, GivesWork;
    var s :| s in subs && IsSubStack(rules, dir, base, sub, s);
    assert s in multiset(StackOf(base, dir, root) + subs);
  }

  /** And so has the compose directory itself. */
  lemma RootIsNotMissed(rules: Rules, disk: Disk, dir: string, base: string, e: Entry)
    requires Uncached(rules, disk, dir, base).Ok? && e in disk.list(dir).value
    requires IsComposeFile(rules, disk, dir, e) && GivesWork(rules, disk, dir, e)
    ensures exists s :: s in Uncached(rules, disk, dir, base).value && s.project == base && s.dir == dir
  {
    var entries := disk.list(dir).value;
    StackOfExists(rules, disk, base, dir, e);
    var l := ListEntries(rules, disk, dir, entries).value;
    var subs := DiscoverSubs(rules, disk, dir, base, entries).value;
    SettleMeans(StackOf(base, dir, l) + subs);
    hide Settle, ListEntries, DiscoverSubs, StackOf, IsComposeFile, GivesWork, MergeOrder;
    var s := Stack(base, dir, MergeOrder(l.files));
    assert s in StackOf(base, dir, l) + subs;
    assert s in multiset(StackOf(base, dir, l) + subs);
  }
}
