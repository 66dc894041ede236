/** internal/compose/discover.go: which stacks a compose directory holds, and the fingerprint of what that depends on.
    */
module Discovery {
  import opened Wrappers
  import opened Paths
  import opened Inputs
  import opened Stacks
  import opened Ordering

  /*** The directory ***/

  /** An entry of a directory; a Broken one is a link whose target cannot be examined. */
  datatype Kind = IsFile | IsDir | Broken

  datatype Entry = Entry(name: string, kind: Kind)

  /** What os.ReadDir and os.ReadFile give; None is an error. */
  datatype Disk = Disk(list: string -> Option<seq<Entry>>, read: string -> Option<Bytes>)

  const NUL := "\0"

  predicate NulFree(s: string) {
    '\0' !in s
  }

  predicate EntryName(s: string) {
    Plain([s]) && NulFree(s)
  }

  /** What the operating system promises of a directory that can be listed. */
  ghost predicate Sane(disk: Disk) {
    forall p :: disk.list(p).Some? ==>
      && NulFree(p)
      && (forall i :: 0 <= i < |disk.list(p).value| ==> EntryName(disk.list(p).value[i].name))
      && (forall i, j :: 0 <= i < j < |disk.list(p).value| ==> disk.list(p).value[i].name != disk.list(p).value[j].name)
  }

  /** What discovery takes from elsewhere: strings.ToLower, sanitizeProjectSuffix, YAML and the schema. */
  datatype Rules = Rules(lower: string -> string, suffix: string -> string, parse: Parser, valid: Doc -> bool)

  predicate Hidden(name: string) {
    HasPrefix(name, ".")
  }

  function Ext(name: string): string {
    if '.' !in name then ""
    else if name[0] == '.' && '.' !in name[1..] then name
    else Ext(name[1..])
  }

  predicate Candidate(rules: Rules, e: Entry) {
    !Hidden(e.name) && rules.lower(Ext(e.name)) in [".yaml", ".yml"] && e.kind == IsFile
  }

  predicate SubDir(e: Entry) {
    !Hidden(e.name) && e.kind == IsDir
  }

  /*** One file ***/

  datatype Check = NotCompose | Compose(workloads: bool) | Malformed

  const TOP_LEVEL_KEYS := {"configs", "include", "models", "name", "networks", "secrets", "services", "version",
      "volumes"}

  predicate LooksLikeCompose(d: Doc) {
    d != map[] && ("services" in d || "include" in d || forall k :: k in d ==>
        k in TOP_LEVEL_KEYS || HasPrefix(k, "x-"))
  }

  predicate DefinesWorkloads(d: Doc) {
    || (Field(d, "services").Mapping? && Field(d, "services").fields != map[])
    || (Field(d, "include").List? && Field(d, "include").items != [])
  }

  function CheckFile(rules: Rules, data: Bytes): Check {
    var docs := rules.parse(data);
    if docs.None? then Malformed
    else if docs.value == [] || !LooksLikeCompose(docs.value[0]) then NotCompose
    else if |docs.value| > 1 || !rules.valid(docs.value[0]) then Malformed
    else Compose(DefinesWorkloads(docs.value[0]))
  }

  const BASE_NAMES := {"compose.yaml", "compose.yml", "docker-compose.yaml", "docker-compose.yml"}

  predicate HasSuffix(s: string, x: string) {
    |x| <= |s| && s[|s| - |x|..] == x
  }

  function MergeRank(rules: Rules, name: string): nat {
    var n := rules.lower(name);
    if n in BASE_NAMES then 0
    else
      var ext := Ext(n);
      var stem := if HasSuffix(n, ext) then n[..|n| - |ext|] else n;
      if HasSuffix(stem, ".override") then 2 else 1
  }

  /*** One directory ***/

  datatype File = File(name: string, data: Bytes)

  datatype Error = Unreadable(path: string) | Invalid(path: string) | NoStacks | Collision(project: string)

  datatype Outcome<T> = Ok(value: T) | Err(error: Error)

  /** The compose files of a directory with their merge rank, and whether one defines a workload. */
  datatype Listing = Listing(files: seq<Ranked>, workloads: bool)

  datatype Ranked = Ranked(rank: nat, path: string)

  predicate RankedBefore(a: Ranked, b: Ranked) {
    a.rank < b.rank || (a.rank == b.rank && Less(a.path, b.path))
  }

  function ListFile(rules: Rules, dir: string, l: Listing, f: File): Outcome<Listing> {
    var path := JoinPath(dir, f.name);
    match CheckFile(rules, f.data)
    case Malformed => Err(Invalid(path))
    case NotCompose => Ok(l)
    case Compose(w) => Ok(Listing(l.files + [Ranked(MergeRank(rules, f.name), path)], l.workloads || w))
  }

  /** The loop of composeFilesIn, reading each candidate before it is checked. */
  function ListEntries(rules: Rules, disk: Disk, dir: string, entries: seq<Entry>): Outcome<Listing> {
    if entries == [] then Ok(Listing([], false))
    else
      var l := ListEntries(rules, disk, dir, entries[..|entries| - 1]);
      var e := entries[|entries| - 1];
      if l.Err? || !Candidate(rules, e) then l
      else
        var data := disk.read(JoinPath(dir, e.name));
        if data.None? then Err(Unreadable(JoinPath(dir, e.name)))
        else ListFile(rules, dir, l.value, File(e.name, data.value))
  }

  function MergeOrder(files: seq<Ranked>): seq<string> {
    var s := SortBy(files, RankedBefore);
    seq(|s|, i requires 0 <= i < |s| => s[i].path)
  }

  /** The stack a directory is, if it has compose files and a workload. */
  function StackOf(project: string, dir: string, l: Listing): seq<Stack> {
    if l.files != [] && l.workloads then [Stack(project, dir, MergeOrder(l.files))] else []
  }

  /*** All of it ***/

  function DiscoverSubs(rules: Rules, disk: Disk, dir: string, base: string, entries: seq<Entry>): Outcome<seq<Stack>> {
    if entries == [] then Ok([])
    else
      var found := DiscoverSubs(rules, disk, dir, base, entries[..|entries| - 1]);
      var e := entries[|entries| - 1];
      if found.Err? || !SubDir(e) then found
      else
        var sub := JoinPath(dir, e.name);
        var inside := disk.list(sub);
        if inside.None? then Err(Unreadable(sub))
        else
          var l := ListEntries(rules, disk, sub, inside.value);
          if l.Err? then Err(l.error)
          else Ok(found.value + StackOf(base + "-" + rules.suffix(e.name), sub, l.value))
  }

  predicate NamedBefore(a: Stack, b: Stack) {
    Less(a.project, b.project)
  }

  predicate NoCollision(stacks: seq<Stack>) {
    forall i :: 1 <= i < |stacks| ==> stacks[i].project != stacks[i - 1].project
  }

  /** Sorting, and the check that no two directories give one project. */
  function Settle(stacks: seq<Stack>): Outcome<seq<Stack>> {
    if stacks == [] then Err(NoStacks)
    else
      var s := SortBy(stacks, NamedBefore);
      if NoCollision(s) then Ok(s)
      else
        var i := FirstCollision(s, 1);
        Err(Collision(s[i].project))
  }

  function FirstCollision(s: seq<Stack>, i: nat): (r: nat)
    requires 1 <= i && exists k :: i <= k < |s| && s[k].project == s[k - 1].project
    ensures i <= r < |s| && s[r].project == s[r - 1].project
    decreases |s| - i
  {
    if s[i].project == s[i - 1].project then i else FirstCollision(s, i + 1)
  }

  /** discover: the stacks found without any cache. */
  function Uncached(rules: Rules, disk: Disk, dir: string, base: string): Outcome<seq<Stack>> {
    var entries := disk.list(dir);
    if entries.None? then Err(Unreadable(dir))
    else
      var root := ListEntries(rules, disk, dir, entries.value);
      if root.Err? then Err(root.error)
      else
        var subs := DiscoverSubs(rules, disk, dir, base, entries.value);
        if subs.Err? then subs else Settle(StackOf(base, dir, root.value) + subs.value)
  }

  /*** What a fingerprint covers ***/

  datatype Sub = Sub(name: string, files: seq<File>)

  datatype View = View(root: seq<File>, subs: seq<Sub>)

  /** The candidates of a directory with their contents; None when one cannot be read. */
  function FilesOf(rules: Rules, disk: Disk, dir: string, entries: seq<Entry>): Option<seq<File>> {
    if entries == [] then Some([])
    else
      var fs := FilesOf(rules, disk, dir, entries[..|entries| - 1]);
      var e := entries[|entries| - 1];
      if fs.None? || !Candidate(rules, e) then fs
      else
        var data := disk.read(JoinPath(dir, e.name));
        if data.None? then None else Some(fs.value + [File(e.name, data.value)])
  }

  function SubsOf(rules: Rules, disk: Disk, dir: string, entries: seq<Entry>): Option<seq<Sub>> {
    if entries == [] then Some([])
    else
      var subs := SubsOf(rules, disk, dir, entries[..|entries| - 1]);
      var e := entries[|entries| - 1];
      if subs.None? || !SubDir(e) then subs
      else
        var sub := JoinPath(dir, e.name);
        if disk.list(sub).None? then None
        else
          var fs := FilesOf(rules, disk, sub, disk.list(sub).value);
          if fs.None? then None else Some(subs.value + [Sub(e.name, fs.value)])
  }

  function ViewOf(rules: Rules, disk: Disk, dir: string): Option<View> {
    if disk.list(dir).None? then None
    else
      var root := FilesOf(rules, disk, dir, disk.list(dir).value);
      if root.None? then None
      else
        var subs := SubsOf(rules, disk, dir, disk.list(dir).value);
        if subs.None? then None else Some(View(root.value, subs.value))
  }

  /*** Discovery depends on the view alone ***/

  function ListFiles(rules: Rules, dir: string, fs: seq<File>): Outcome<Listing> {
    if fs == [] then Ok(Listing([], false))
    else
      var l := ListFiles(rules, dir, fs[..|fs| - 1]);
      if l.Err? then l else ListFile(rules, dir, l.value, fs[|fs| - 1])
  }

  function StacksOfSubs(rules: Rules, dir: string, base: string, subs: seq<Sub>): Outcome<seq<Stack>> {
    if subs == [] then Ok([])
    else
      var found := StacksOfSubs(rules, dir, base, subs[..|subs| - 1]);
      var s := subs[|subs| - 1];
      if found.Err? then found
      else
        var sub := JoinPath(dir, s.name);
        var l := ListFiles(rules, sub, s.files);
        if l.Err? then Err(l.error) else Ok(found.value + StackOf(base + "-" + rules.suffix(s.name), sub, l.value))
  }

  function StacksOfView(rules: Rules, dir: string, base: string, v: View): Outcome<seq<Stack>> {
    var root := ListFiles(rules, dir, v.root);
    if root.Err? then Err(root.error)
    else
      var subs := StacksOfSubs(rules, dir, base, v.subs);
      if subs.Err? then subs else Settle(StackOf(base, dir, root.value) + subs.value)
  }

  lemma {:induction false} ListEntriesSeesFiles(rules: Rules, disk: Disk, dir: string, entries: seq<Entry>)
    requires FilesOf(rules, disk, dir, entries).Some?
    ensures ListEntries(rules, disk, dir, entries) == ListFiles(rules, dir, FilesOf(rules, disk, dir, entries).value)
  {
    if entries != [] {
      var n := |entries| - 1;
      ListEntriesSeesFiles(rules, disk, dir, entries[..n]);
      var fs := FilesOf(rules, disk, dir, entries[..n]).value;
      var e := entries[n];
      if Candidate(rules, e) {
        var f := File(e.name, disk.read(JoinPath(dir, e.name)).value);
        assert (fs + [f])[..|fs|] == fs;
      }
    }
  }

  lemma {:induction false} DiscoverSubsSeesSubs(rules: Rules, disk: Disk, dir: string, base: string,
      entries: seq<Entry>)
    requires SubsOf(rules, disk, dir, entries).Some?
    ensures DiscoverSubs(rules, disk, dir, base, entries)
        == StacksOfSubs(rules, dir, base, SubsOf(rules, disk, dir, entries).value)
  {
    if entries != [] {
      var n := |entries| - 1;
      DiscoverSubsSeesSubs(rules, disk, dir, base, entries[..n]);
      var subs := SubsOf(rules, disk, dir, entries[..n]).value;
      var e := entries[n];
      if SubDir(e) {
        var sub := JoinPath(dir, e.name);
        ListEntriesSeesFiles(rules, disk, sub, disk.list(sub).value);
        var s := Sub(e.name, FilesOf(rules, disk, sub, disk.list(sub).value).value);
        assert (subs + [s])[..|subs|] == subs;
      }
    }
  }

  lemma DiscoverySeesView(rules: Rules, disk: Disk, dir: string, base: string)
    requires ViewOf(rules, disk, dir).Some?
    ensures Uncached(rules, disk, dir, base) == StacksOfView(rules, dir, base, ViewOf(rules, disk, dir).value)
  {
    ListEntriesSeesFiles(rules, disk, dir, disk.list(dir).value);
    DiscoverSubsSeesSubs(rules, disk, dir, base, disk.list(dir).value);
  }
}
