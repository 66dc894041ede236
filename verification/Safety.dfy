/** What every run keeps, at every crash point. */
module Safety {
  import opened Records
  import opened Stacks
  import opened Protocol

  /** Which runs a sequence may hold: `forced` runs; forced runs that leave DEGRADED (`revived`); runs that find a
      newer commit on the branch than the pending one (`superseded`); and runs that attempt the rollback target itself
      (`retried`). `counts` and `traces`: every project that runs, or that an apply has touched, is to be accounted
      for, which limits what may be revived and superseded. Without force, known-bad commits are refused from event
      `since` on. When `hold` is a pending record, the events from `mark` on are those of the recovery attempt it has
      counted. */
  datatype Mode = Mode(
    forced: bool,
    revived: bool,
    superseded: bool,
    retried: bool,
    counts: bool,
    traces: bool,
    since: nat,
    hold: State,
    mark: nat)
  {
    predicate Valid() {
      (revived ==> forced) && (hold.Pending() ==> !superseded)
    }
  }

  function SetOf(names: seq<Name>): set<Name> {
    set n | n in names
  }

  /** A pending record says since when, and one that is not carries no trace of a pending apply. */
  predicate Clean(s: State) {
    if s.Pending() then s.pendingSince != 0
    else s.pendingSince == 0 && s.pendingAttempts == 0 && s.pendingStacks == []
  }

  /** The same pending episode, at the same attempt. */
  predicate SameAttempt(a: State, b: State) {
    a.pendingCommit == b.pendingCommit && a.pendingSince == b.pendingSince && a.pendingAttempts == b.pendingAttempts
  }

  /** The healthy stack set is the one discovered at the rollback target. */
  predicate Anchored(site: Site, s: State) {
    s.lastHealthyStacks == if s.lastHealthy == NO_COMMIT then [] else Names(site.stacksAt(s.lastHealthy))
  }

  /** A pending apply names some of the stacks of its own commit. */
  predicate Attributed(site: Site, s: State) {
    s.pendingCommit != NO_COMMIT && !s.pendingRevert ==>
      s.pendingStacks != [] && SetOf(s.pendingStacks) <= NameSet(site.stacksAt(s.pendingCommit))
  }

  /** A pending commit that is known-bad is being reverted. */
  predicate Guarded(s: State) {
    s.IsKnownBad(s.pendingCommit) ==> s.RevertInProgress()
  }

  /** The rollback target is not held against itself, and is not what is pending. */
  predicate Trusted(s: State) {
    !s.IsKnownBad(s.lastHealthy) && (s.pendingCommit != NO_COMMIT ==> s.pendingCommit != s.lastHealthy)
  }

  /** Every project that may run is a healthy or a pending one. */
  predicate Counted(w: World, s: State) {
    w.running <= SetOf(s.lastHealthyStacks) + SetOf(s.pendingStacks)
  }

  /** Every project a failed apply may have left behind is pending, and touched by the pending commit unless that has
      superseded another. */
  predicate Traced(m: Mode, w: World, s: State) {
    && w.dirty.Keys <= SetOf(s.pendingStacks)
    && (!m.superseded ==> forall n :: n in w.dirty ==> w.dirty[n] == s.pendingCommit)
  }

  predicate Accounted(m: Mode, w: World, s: State) {
    (m.counts ==> Counted(w, s)) && (m.traces ==> Traced(m, w, s))
  }

  /** What a record keeps by itself. */
  predicate Kept(site: Site, m: Mode, s: State) {
    && Clean(s)
    && Anchored(site, s)
    && Attributed(site, s)
    && s.preflightBlocks <= MAX_PREFLIGHT_BLOCKS
    && (!m.revived ==> s.lastResult == Degraded ==> !s.Pending())
    && (!m.forced ==> Guarded(s))
    && (!m.retried ==> Trusted(s))
    && (!m.superseded ==> s.pendingAttempts <= MAX_RECOVERY_ATTEMPTS)
    && (m.hold.Pending() && s.Pending() ==> SameAttempt(m.hold, s))
  }

  /** A record fit for a run to go on with. */
  predicate Fit(site: Site, m: Mode, w: World, s: State) {
    Kept(site, m, s) && Accounted(m, w, s)
  }

  /** A durable record: DEGRADED promises nothing of what runs. */
  predicate AtRest(site: Site, m: Mode, w: World, s: State) {
    Kept(site, m, s) && (s.lastResult == Degraded || Accounted(m, w, s))
  }

  /** The stack of this name was looked at. */
  ghost predicate Judged(seen: Evidence, n: Name) {
    exists k :: (n, k) in seen.needs
  }

  /** A save that moves the rollback target records the commit in the worktree with all its stacks. Each was looked at;
      those that had to come up did and were watched healthy; all had to on a first deploy; an unweighed one is let pass
      only when another came up; one left aside by a resumed apply is not in its record; and every former stack it does
      not have, last healthy or found at the worktree before, was torn down. */
  ghost predicate Legitimate(site: Site, before: State, after: State, tree: Commit, seen: Evidence) {
    && after.lastHealthy == tree
    && after.lastHealthyStacks == Names(site.stacksAt(tree))
    && (forall n :: n in after.lastHealthyStacks ==> Judged(seen, n))
    && (forall n :: (n, Required) in seen.needs ==> n in seen.up && n in seen.healthy)
    && (before.lastHealthy == NO_COMMIT ==> forall n, k :: (n, k) in seen.needs ==> k == Required)
    && (seen.up == {} ==> forall n :: (n, Unweighed) !in seen.needs)
    && (forall n :: (n, Aside) in seen.needs ==> before.pendingCommit == tree && n !in before.pendingStacks)
    && SetOf(before.lastHealthyStacks) <= seen.former
    && seen.former - SetOf(after.lastHealthyStacks) <= seen.down
    && !after.Pending()
  }

  /** A save that ends a pending apply: it gives up, promotes, or finishes the revert, every pending stack having come
      up healthy at the rollback target or been torn down since that was checked out. */
  ghost predicate Settles(site: Site, before: State, after: State, tree: Commit, seen: Evidence) {
    || after.lastResult == Degraded
    || Legitimate(site, before, after, tree, seen)
    || (&& after.lastResult == Reverted && SameTarget(before, after) && tree == after.lastHealthy
        && SetOf(before.pendingStacks) <= (seen.up * seen.healthy) + seen.down)
  }

  predicate SameTarget(a: State, b: State) {
    a.lastHealthy == b.lastHealthy && a.lastHealthyStacks == b.lastHealthyStacks
  }

  /** An Up happens at the rollback target, or at the commit the durable record already holds as pending, for a stack
      that record already names. */
  ghost predicate EventOk(site: Site, e: Event) {
    match e
    case Upped(name, tree, _, durable, _) =>
      tree == durable.lastHealthy || (tree == durable.pendingCommit != NO_COMMIT && name in durable.pendingStacks)
    case Saved(before, after, tree, seen) =>
      SameTarget(before, after) || Legitimate(site, before, after, tree, seen)
    case _ => true
  }

  /** Without force, an Up away from the rollback target is not of a commit the run loaded as known-bad. */
  predicate EventGuarded(m: Mode, e: Event) {
    !m.forced && e.Upped? && e.tree != e.durable.lastHealthy ==> !e.loaded.IsKnownBad(e.tree)
  }

  /** Pull, Up and Down. */
  predicate TouchesDocker(e: Event) {
    e.Pulled? || e.Upped? || e.Downed?
  }

  /** Docker is touched only while the durable record shows the attempt as counted. */
  predicate EventHeld(m: Mode, e: Event) {
    m.hold.Pending() && TouchesDocker(e) ==> e.durable.Pending() && SameAttempt(m.hold, e.durable)
  }

  /** What one event does to whether an apply is under way. */
  predicate OpenAfter(open: bool, e: Event) {
    match e
    case Upped(_, tree, _, durable, _) => open || tree != durable.lastHealthy
    case Saved(_, after, _, _) => open && after.Pending()
    case _ => open
  }

  /** An apply has brought something up, and no save has ended it yet. */
  predicate Open(log: seq<Event>) {
    log != [] && OpenAfter(Open(log[..|log| - 1]), log[|log| - 1])
  }

  /** Only a settling save ends an apply. */
  ghost predicate EndOk(site: Site, open: bool, e: Event) {
    e.Saved? && open && !e.after.Pending() ==> Settles(site, e.before, e.after, e.tree, e.seen)
  }

  ghost predicate LogOk(site: Site, m: Mode, log: seq<Event>) {
    forall i :: 0 <= i < |log| ==>
      && EventOk(site, log[i])
      && (m.since <= i ==> EventGuarded(m, log[i]))
      && (m.mark <= i ==> EventHeld(m, log[i]))
      && EndOk(site, Open(log[..i]), log[i])
  }

  /** The rollback target is one that a legitimate save recorded. */
  ghost predicate Witnessed(site: Site, s: State, log: seq<Event>) {
    s.lastHealthy == NO_COMMIT ||
    exists i :: 0 <= i < |log| && log[i].Saved? && SameTarget(s, log[i].after)
                && Legitimate(site, log[i].before, log[i].after, log[i].tree, log[i].seen)
  }

  ghost predicate Chronicle(site: Site, m: Mode, s: State, log: seq<Event>) {
    LogOk(site, m, log) && Witnessed(site, s, log)
  }

  /** What one event does to the projects that an apply has touched. */
  function Mark(d: map<Name, Commit>, e: Event): map<Name, Commit> {
    match e
    case Upped(name, tree, _, durable, ok) =>
      if tree != durable.lastHealthy then d[name := tree] else if ok then d - {name} else d
    case Downed(name, _, ok) => if ok then d - {name} else d
    case Saved(before, after, _, _) =>
      if after.lastHealthy == before.lastHealthy then d else map n | n in d && d[n] != after.lastHealthy :: d[n]
    case _ => d
  }

  /** The projects that the log shows to be touched by an apply and not settled since, with the commit. */
  function Marked(log: seq<Event>): map<Name, Commit> {
    if log == [] then map[] else Mark(Marked(log[..|log| - 1]), log[|log| - 1])
  }

  /** Between runs and at every crash point. */
  ghost predicate Inv(site: Site, m: Mode, w: World) {
    AtRest(site, m, w, w.disk) && Chronicle(site, m, w.disk, w.log) && w.dirty == Marked(w.log)
        && (Open(w.log) ==> w.disk.Pending())
  }

  /** Inside a run that has passed the DEGRADED check and still has saves to make. */
  ghost predicate Live(site: Site, m: Mode, w: World) {
    && m.Valid()
    && Inv(site, m, w)
    && Fit(site, m, w, w.mem)
    && Accounted(m, w, w.disk)
    && SameTarget(w.mem, w.disk)
    && (!m.revived ==> w.mem.lastResult != Degraded && w.disk.lastResult != Degraded)
    && (m.hold.Pending() ==> w.mem.Pending() && w.disk.Pending())
    && (Open(w.log) ==> w.mem.Pending())
  }

  /** Nothing but time has passed. */
  predicate Still(w: World, w': World) {
    && w'.disk == w.disk && w'.mem == w.mem && w'.loaded == w.loaded && w'.tree == w.tree
    && w'.running == w.running && w'.dirty == w.dirty && w'.seen == w.seen
    && Open(w'.log) == Open(w.log)
  }

  /** No save and no checkout. */
  predicate SameRecords(w: World, w': World) {
    w'.disk == w.disk && w'.mem == w.mem && w'.loaded == w.loaded && w'.tree == w.tree
    && w'.seen.needs == w.seen.needs && w'.seen.former == w.seen.former
  }

  /** The projects `names` and the rollback target account for everything that may run. */
  predicate Covers(m: Mode, w: World, names: set<Name>) {
    && (m.counts ==> w.running <= SetOf(w.mem.lastHealthyStacks) + names)
    && (m.traces ==> w.dirty.Keys <= names)
  }

  /*** Calls ***/

  lemma LogSteps(log: seq<Event>, e: Event)
    ensures (log + [e])[..|log|] == log
    ensures Marked(log + [e]) == Mark(Marked(log), e) && Open(log + [e]) == OpenAfter(Open(log), e)
  {
    assert (log + [e])[..|log|] == log;
  }

  /** An event that does not move the rollback target. */
  lemma ChronicleGrows(site: Site, m: Mode, s: State, s': State, log: seq<Event>, e: Event)
    requires Chronicle(site, m, s, log) && SameTarget(s, s') && EventOk(site, e) && EventGuarded(m, e)
        && EventHeld(m, e) && EndOk(site, Open(log), e)
    ensures Chronicle(site, m, s', log + [e]) && Marked(log + [e]) == Mark(Marked(log), e)
    ensures Open(log + [e]) == OpenAfter(Open(log), e)
  {
    LogSteps(log, e);
    hide EventOk, EventGuarded, EventHeld, Legitimate, EndOk, Open, Marked;
    assert forall i :: 0 <= i < |log| ==> (log + [e])[..i] == log[..i];
    if s.lastHealthy != NO_COMMIT {
      var i :| 0 <= i < |log| && log[i].Saved? && SameTarget(s, log[i].after)
               && Legitimate(site, log[i].before, log[i].after, log[i].tree, log[i].seen);
      assert (log + [e])[i] == log[i];
    }
  }

  /** A save that moves the rollback target legitimately. */
  lemma ChronicleMoves(site: Site, m: Mode, s: State, s': State, log: seq<Event>, tree: Commit, seen: Evidence)
    requires Chronicle(site, m, s, log) && Legitimate(site, s, s', tree, seen)
    ensures var e := Saved(s, s', tree, seen);
      Chronicle(site, m, s', log + [e]) && Marked(log + [e]) == Mark(Marked(log), e)
          && Open(log + [e]) == OpenAfter(Open(log), e)
  {
    var log' := log + [Saved(s, s', tree, seen)];
    LogSteps(log, Saved(s, s', tree, seen));
    hide Legitimate, Open, Marked;
    assert forall i :: 0 <= i < |log| ==> log'[..i] == log[..i];
    assert log'[|log|] == Saved(s, s', tree, seen);
  }

  /** Marking a commit adds no other to the known-bad ones. */
  lemma MarkedKnows(s: State, commit: Commit, other: Commit)
    ensures s.MarkFailed(commit).IsKnownBad(other) ==> other == commit || s.IsKnownBad(other)
  {
  }

  lemma FitShrinks(site: Site, m: Mode, w: World, w': World, s: State)
    requires Fit(site, m, w, s)
    requires w'.running <= w.running && w'.dirty.Keys <= w.dirty.Keys
    requires forall n :: n in w'.dirty ==> w'.dirty[n] == w.dirty[n]
    ensures Fit(site, m, w', s)
  {
  }

  /** Saving this record does not end an apply unsettled. */
  ghost predicate EndsWell(site: Site, w: World, next: State) {
    Open(w.log) && !next.Pending() ==> Settles(site, w.disk, next, w.tree, w.seen)
  }

  lemma WrittenKeeps(site: Site, m: Mode, w: World, next: State)
    requires Inv(site, m, w) && AtRest(site, m, w, next) && SameTarget(w.disk, next) && EndsWell(site, w, next)
    ensures Inv(site, m, Written(w, next)) && (Open(Written(w, next).log) ==> Open(w.log))
  {
    hide Kept, Chronicle, Open, Settles;
    ChronicleGrows(site, m, w.disk, next, w.log, Saved(w.disk, next, w.tree, w.seen));
  }

  /** A save that leaves the target alone. */
  lemma SaveKeeps(site: Site, m: Mode, w: World, env: Env, next: State)
    requires Inv(site, m, w) && AtRest(site, m, w, next) && SameTarget(w.disk, next) && EndsWell(site, w, next)
    ensures Inv(site, m, Save(w, env, next).w)
    ensures var w' := Save(w, env, next).w;
      && w'.running == w.running && w'.dirty == w.dirty && w'.seen == w.seen && w'.tree == w.tree
      && w'.mem == w.mem && w'.loaded == w.loaded && (w'.disk == w.disk || w'.disk == next)
      && (Open(w'.log) ==> Open(w.log))
    ensures Save(w, env, next).Done? && Save(w, env, next).value ==> Save(w, env, next).w.disk == next
  {
    hide Kept, Chronicle, Mark, Marked, Open, Settles;
    WrittenKeeps(site, m, Tick(w, env), next);
  }

  lemma SaveNextKeeps(site: Site, m: Mode, w: World, env: Env, next: State)
    requires Live(site, m, w) && Fit(site, m, w, next) && SameTarget(w.disk, next) && EndsWell(site, w, next)
    requires !m.revived ==> next.lastResult != Degraded
    requires m.hold.Pending() ==> next.Pending()
    ensures Inv(site, m, SaveNext(w, env, next).w)
    ensures SaveNext(w, env, next).Done? ==> Live(site, m, SaveNext(w, env, next).w)
    ensures var w' := SaveNext(w, env, next).w;
      && w'.running == w.running && w'.dirty == w.dirty && w'.seen == w.seen && w'.tree == w.tree
      && w'.loaded == w.loaded && (w'.mem == w.mem || w'.mem == next)
    ensures SaveNext(w, env, next).Done? && SaveNext(w, env, next).value ==>
              SaveNext(w, env, next).w.disk == next && SaveNext(w, env, next).w.mem == next
  {
    hide Kept, Chronicle, Mark, Marked, Open, Settles;
    SaveKeeps(site, m, w, env, next);
  }

  /** The run goes on with another record of its own. */
  lemma AdoptKeeps(site: Site, m: Mode, w: World, next: State)
    requires Live(site, m, w) && Fit(site, m, w, next) && SameTarget(w.mem, next)
    requires (!m.revived ==> next.lastResult != Degraded) && (w.mem.Pending() ==> next.Pending())
    ensures Live(site, m, w.(mem := next))
  {
    hide Kept, Chronicle, Marked, Open;
  }

  lemma CheckoutKeeps(site: Site, m: Mode, w: World, env: Env, commit: Commit)
    requires Live(site, m, w)
    ensures var s := Checkout(w, env, commit);
      && Live(site, m, s.w)
      && s.w.disk == w.disk && s.w.mem == w.mem && s.w.loaded == w.loaded
      && s.w.running == w.running && s.w.dirty == w.dirty && Open(s.w.log) == Open(w.log)
      && (s.Done? && s.value.NoFault? ==> s.w.tree == commit && commit != NO_COMMIT && s.w.seen == NOTHING)
  {
    hide Kept, Chronicle, Marked, Open;
    if commit != NO_COMMIT {
      ChronicleGrows(site, m, w.disk, w.disk, w.log, CheckedOut(commit, env.reply(w.tick).Ok?));
    }
  }

  lemma TickKeeps(site: Site, m: Mode, w: World, env: Env)
    requires Live(site, m, w)
    ensures Live(site, m, Tick(w, env))
  {
    hide Kept, Chronicle, Marked, Open;
  }

  lemma AskKeeps(site: Site, m: Mode, w: World, env: Env)
    requires Live(site, m, w)
    ensures Live(site, m, Ask(w, env).w) && Still(w, Ask(w, env).w)
    ensures Discover(site, env, w).w == Fetch(w, env).w == Judge(w, env).w == Ask(w, env).w
  {
    hide Kept, Chronicle, Marked, Open;
  }

  lemma {:induction false} LoadAllKeeps(site: Site, m: Mode, w: World, env: Env, names: seq<Name>)
    requires Live(site, m, w)
    ensures Live(site, m, LoadAll(w, env, names).w) && Still(w, LoadAll(w, env, names).w)
    decreases |names|
  {
    hide Live, Open;
    if names != [] {
      AskKeeps(site, m, w, env);
      var s := Ask(w, env);
      if s.Done? && s.value.NoFault? {
        AskKeeps(site, m, s.w, env);
        var t := Ask(s.w, env);
        if t.Done? && t.value.NoFault? {
          LoadAllKeeps(site, m, t.w, env, names[1..]);
        }
      }
    }
  }

  lemma DiskIsHeld(site: Site, m: Mode, w: World)
    requires Live(site, m, w)
    ensures m.hold.Pending() ==> w.disk.Pending() && SameAttempt(m.hold, w.disk)
  {
    hide Chronicle, Marked, Open;
  }

  lemma PullKeeps(site: Site, m: Mode, w: World, env: Env, name: Name)
    requires Live(site, m, w)
    ensures Live(site, m, Pull(w, env, name).w) && Still(w, Pull(w, env, name).w)
  {
    hide Kept, Chronicle, Marked, Open;
    DiskIsHeld(site, m, w);
    ChronicleGrows(site, m, w.disk, w.disk, w.log, Pulled(name, w.disk));
    AskKeeps(site, m, w.(log := w.log + [Pulled(name, w.disk)]), env);
  }

  lemma {:induction false} PullAllKeeps(site: Site, m: Mode, w: World, env: Env, names: seq<Name>)
    requires Live(site, m, w)
    ensures Live(site, m, PullAll(w, env, names).w) && Still(w, PullAll(w, env, names).w)
    decreases |names|
  {
    hide Live, Open;
    if names != [] {
      PullKeeps(site, m, w, env, names[0]);
      var s := Pull(w, env, names[0]);
      if s.Done? && s.value.NoFault? {
        PullAllKeeps(site, m, s.w, env, names[1..]);
      }
    }
  }

  /** This project may be brought up from the current worktree. */
  predicate MayStart(m: Mode, w: World, n: Name) {
    && (w.tree == w.disk.lastHealthy ||
        (w.tree == w.disk.pendingCommit != NO_COMMIT && n in w.disk.pendingStacks
            && (!m.forced ==> !w.loaded.IsKnownBad(w.tree))))
    && (w.tree != w.disk.lastHealthy ==> w.mem.pendingCommit == w.tree && n in w.mem.pendingStacks)
    && (w.tree == w.disk.lastHealthy ==>
        n in w.mem.lastHealthyStacks || (n in w.disk.pendingStacks && n in w.mem.pendingStacks))
  }

  lemma StartedIsAccounted(m: Mode, w: World, s: State, n: Name, ok: bool)
    requires Accounted(m, w, s)
    requires w.tree != w.disk.lastHealthy ==> s.pendingCommit == w.tree && n in s.pendingStacks
    requires n in s.lastHealthyStacks || n in s.pendingStacks
    ensures Accounted(m, Started(w, n, ok), s)
  {
  }

  lemma StartedKeeps(site: Site, m: Mode, w: World, n: Name, ok: bool)
    requires Live(site, m, w) && MayStart(m, w, n)
    ensures Live(site, m, Started(w, n, ok))
    ensures w.tree == w.disk.lastHealthy ==> Open(Started(w, n, ok).log) == Open(w.log)
  {
    hide Kept, Chronicle, Marked, Open, Accounted;
    DiskIsHeld(site, m, w);
    StartedIsAccounted(m, w, w.mem, n, ok);
    StartedIsAccounted(m, w, w.disk, n, ok);
    ChronicleGrows(site, m, w.disk, w.disk, w.log, Upped(n, w.tree, w.loaded, w.disk, ok));
  }

  lemma {:induction false} UpAllKeeps(site: Site, m: Mode, w: World, env: Env, names: seq<Name>)
    requires Live(site, m, w)
    requires forall n :: n in names ==> MayStart(m, w, n)
    ensures var s := UpAll(w, env, names);
      && Live(site, m, s.w) && SameRecords(w, s.w)
      && s.w.running <= w.running + SetOf(names)
      && s.w.dirty.Keys <= w.dirty.Keys + SetOf(names)
      && (w.tree == w.disk.lastHealthy ==> s.w.dirty.Keys <= w.dirty.Keys && Open(s.w.log) == Open(w.log))
      && s.w.seen.down == w.seen.down && w.seen.up <= s.w.seen.up
      && (s.Done? && s.value.NoFault? ==>
            && SetOf(names) <= s.w.seen.up
            && (w.tree == w.disk.lastHealthy ==> s.w.dirty.Keys !! SetOf(names)))
    decreases |names|
  {
    hide Live, Open;
    if names != [] {
      var r := env.reply(w.tick);
      assert MayStart(m, w, names[0]);
      TickKeeps(site, m, w, env);
      StartedKeeps(site, m, Tick(w, env), names[0], r.Ok?);
      var w1 := Started(Tick(w, env), names[0], r.Ok?);
      if r.Ok? {
        forall n | n in names[1..] ensures MayStart(m, w1, n) {
          assert MayStart(m, w, n);
        }
        UpAllKeeps(site, m, w1, env, names[1..]);
      }
    }
  }

  lemma StoppedKeeps(site: Site, m: Mode, w: World, n: Name, ok: bool)
    requires Live(site, m, w)
    ensures Live(site, m, Stopped(w, n, ok)) && Open(Stopped(w, n, ok).log) == Open(w.log)
  {
    hide Kept, Chronicle, Marked, Open;
    DiskIsHeld(site, m, w);
    ChronicleGrows(site, m, w.disk, w.disk, w.log, Downed(n, w.disk, ok));
    FitShrinks(site, m, w, Stopped(w, n, ok), w.disk);
    FitShrinks(site, m, w, Stopped(w, n, ok), w.mem);
  }

  lemma {:induction false} TearDownKeeps(site: Site, m: Mode, w: World, env: Env, names: seq<Name>)
    requires Live(site, m, w)
    ensures var s := TearDown(w, env, names);
      && Live(site, m, s.w) && SameRecords(w, s.w)
      && s.w.running <= w.running && s.w.dirty.Keys <= w.dirty.Keys && Open(s.w.log) == Open(w.log)
      && w.seen.down <= s.w.seen.down && s.w.seen.up == w.seen.up && s.w.seen.healthy == w.seen.healthy
      && (s.Done? && s.value.NoFault? ==>
            s.w.running !! SetOf(names) && s.w.dirty.Keys !! SetOf(names) && SetOf(names) <= s.w.seen.down)
    decreases |names|
  {
    hide Live, Open;
    if names != [] {
      var r := env.reply(w.tick);
      var gone := r.Ok? || (r.Crash? && env.lands(w.tick));
      TickKeeps(site, m, w, env);
      StoppedKeeps(site, m, Tick(w, env), names[0], gone);
      TearDownKeeps(site, m, Stopped(Tick(w, env), names[0], gone), env, names[1..]);
    }
  }

  lemma WatchKeeps(site: Site, m: Mode, w: World, env: Env, names: seq<Name>)
    requires Live(site, m, w)
    ensures var s := Watch(w, env, names);
      && Live(site, m, s.w) && SameRecords(w, s.w) && s.w.running == w.running && s.w.dirty == w.dirty
          && Open(s.w.log) == Open(w.log)
      && s.w.seen.up == w.seen.up && s.w.seen.down == w.seen.down
      && (s.Done? && s.value.0.NoFault? && s.value.1 ==> SetOf(names) <= s.w.seen.healthy)
  {
    hide Kept, Chronicle, Marked, Open;
    AskKeeps(site, m, w, env);
  }
}
