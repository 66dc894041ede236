/** Every path of apply.go keeps the invariant, at every crash point. */
module ApplySafety {
  import opened Records
  import opened Stacks
  import opened Protocol
  import opened Safety
  import opened RevertSafety

  lemma RecordOutcomeKeeps(site: Site, m: Mode, w: World, env: Env, verdict: Verdict, commit: Commit)
    requires Live(site, m, w) && verdict != Degraded
    ensures Inv(site, m, RecordOutcome(w, env, verdict, commit).w)
  {
    hide Chronicle, Marked, Open, Settles;
    SaveNextKeeps(site, m, w, env, OutcomeOf(w.mem, verdict, commit, Now(w, env)));
  }

  lemma AbortBeforeUpKeeps(site: Site, m: Mode, w: World, env: Env, r: Result)
    requires Live(site, m, w)
    ensures Inv(site, m, Incomplete(w, env, r).w)
    ensures Inv(site, m, AbortBeforeUp(w, env, r).w)
  {
    hide Chronicle, Marked, Open, Settles;
    RecordOutcomeKeeps(site, m, w, env, FailedApply, r.newCommit);
    CheckoutKeeps(site, m, w, env, r.oldCommit);
    var s := Checkout(w, env, r.oldCommit);
    RecordOutcomeKeeps(site, m, s.w, env, FailedApply, r.newCommit);
  }

  /** Marking a commit failed does not make a pending one known-bad behind the protocol's back. */
  lemma FitMarked(site: Site, m: Mode, w: World, s: State, commit: Commit)
    requires Fit(site, m, w, s)
    requires commit == s.pendingCommit || !s.RevertInProgress()
    requires m.retried || commit == NO_COMMIT || commit != s.lastHealthy
    ensures Fit(site, m, w, s.MarkFailed(commit))
  {
    MarkedKnows(s, commit, s.lastHealthy);
    MarkedKnows(s, commit, s.pendingCommit);
    hide LastN, Without;
  }

  lemma MarkedKeeps(site: Site, m: Mode, w: World, commit: Commit)
    requires Live(site, m, w)
    requires commit == w.mem.pendingCommit || !w.mem.RevertInProgress()
    requires m.retried || commit == NO_COMMIT || commit != w.mem.lastHealthy
    ensures Live(site, m, w.(mem := w.mem.MarkFailed(commit)))
  {
    hide Kept, Chronicle, Marked, Open, LastN, Without;
    FitMarked(site, m, w, w.mem, commit);
    AdoptKeeps(site, m, w, w.mem.MarkFailed(commit));
  }

  lemma AbortApplyKeeps(site: Site, m: Mode, w: World, env: Env, r: Result, infra: bool)
    requires Live(site, m, w)
    requires r.newCommit == w.mem.pendingCommit || !w.mem.RevertInProgress()
    requires m.retried || r.newCommit != w.mem.lastHealthy
    ensures Inv(site, m, AbortApply(w, env, r, infra).w)
  {
    hide Live, LastN, Without;
    MarkedKeeps(site, m, w, r.newCommit);
    AbortBeforeUpKeeps(site, m, if infra then w else w.(mem := w.mem.MarkFailed(r.newCommit)), env, r);
  }

  lemma ReportedFits(site: Site, m: Mode, w: World, marked: State)
    requires Live(site, m, w) && Fit(site, m, w, marked) && SameTarget(w.mem, marked)
    requires marked.lastResult == w.mem.lastResult && marked.Pending() == w.mem.Pending()
    ensures Live(site, m, w.(mem := marked.(lastResult := FailedApply)))
  {
    hide Chronicle, Marked, Open, Settles;
  }

  lemma MarkedFits(site: Site, m: Mode, w: World)
    requires Live(site, m, w)
    ensures Live(site, m, w.(mem := w.mem.MarkFailed(w.mem.pendingCommit).(lastResult := FailedApply)))
  {
    var marked := w.mem.MarkFailed(w.mem.pendingCommit);
    FitMarked(site, m, w, w.mem, w.mem.pendingCommit);
    hide Fit, Inv, LastN, Without;
    ReportedFits(site, m, w, marked);
  }

  /** A save of the run's own record. */
  lemma SaveMemKeeps(site: Site, m: Mode, w: World, env: Env)
    requires Live(site, m, w)
    ensures var s := Save(w, env, w.mem);
      && Live(site, m, s.w) && s.w.mem == w.mem && s.w.running == w.running && s.w.dirty == w.dirty
      && (s.w.disk == w.disk || s.w.disk == w.mem)
  {
    hide Chronicle, Marked, Open, Settles;
    SaveKeeps(site, m, w, env, w.mem);
  }

  lemma FailAndRevertKeeps(site: Site, m: Mode, w: World, env: Env, stacks: seq<Stack>, r: Result)
    requires Live(site, m, w) && Covers(m, w, NameSet(stacks))
    requires r.newCommit == w.mem.pendingCommit && w.mem == w.disk && SetOf(w.mem.pendingStacks) <= NameSet(stacks)
    ensures Inv(site, m, FailAndRevert(site, env, w, stacks, r).w)
  {
    hide DoRevert, Save, Inv, Fit;
    var failed := w.mem.MarkFailed(r.newCommit).(lastResult := FailedApply);
    MarkedFits(site, m, w);
    var w0 := w.(mem := failed);
    SaveMemKeeps(site, m, w0, env);
    var s := Save(w0, env, failed);
    if s.Done? {
      DoRevertKeeps(site, m, s.w, env, stacks);
    }
  }

  /** What is to be torn down is every former stack, the last healthy ones among them, that the commit does not have. */
  predicate Vanishes(w: World, stacks: seq<Stack>, vanished: seq<Stack>) {
    && SetOf(w.mem.lastHealthyStacks) <= w.seen.former
    && w.seen.former - NameSet(stacks) <= NameSet(vanished)
  }

  /** The worktree holds the commit about to be promoted, and everything else is settled. */
  ghost predicate Promotable(site: Site, m: Mode, w: World, commit: Commit, stacks: seq<Stack>) {
    && w.tree == commit != NO_COMMIT
    && stacks == site.stacksAt(commit)
    && Considered(w, stacks)
    && Met(w.seen, w.seen.up * w.seen.healthy)
    && (w.seen.up == {} ==> forall n :: (n, Unweighed) !in w.seen.needs)
    && (forall n :: (n, Aside) in w.seen.needs ==> w.disk.pendingCommit == commit && n !in w.disk.pendingStacks)
    && (m.counts ==> w.running <= SetOf(w.mem.lastHealthyStacks) + NameSet(stacks))
    && (m.traces ==>
          && (forall n :: n in w.dirty ==> w.dirty[n] == commit)
          && (commit == w.disk.lastHealthy ==> w.dirty == map[]))
  }

  /** Every stack was looked at, and on a first deploy all of them must come up. */
  ghost predicate Considered(w: World, stacks: seq<Stack>) {
    && (forall n :: n in NameSet(stacks) ==> Judged(w.seen, n))
    && (w.disk.lastHealthy == NO_COMMIT ==> forall n, k :: (n, k) in w.seen.needs ==> k == Required)
  }

  /** Those that must come up are among these. */
  ghost predicate Met(seen: Evidence, names: set<Name>) {
    forall n :: (n, Required) in seen.needs ==> n in names
  }

  lemma PromoteKeeps(site: Site, m: Mode, w: World, env: Env, r: Result, stacks: seq<Stack>)
    requires Live(site, m, w) && Promotable(site, m, w, r.newCommit, stacks)
    requires SetOf(w.mem.lastHealthyStacks) <= w.seen.former && w.seen.former - NameSet(stacks) <= w.seen.down
    requires m.counts ==> w.running !! (SetOf(w.mem.lastHealthyStacks) - NameSet(stacks))
    ensures Inv(site, m, Promote(site, env, w, r, stacks).w)
  {
    hide Live, Inv, Legitimate, Fit, Promotable, Written;
    var next := PromotedOf(w.mem, r.newCommit, Names(stacks), Now(w, env));
    var w1 := Tick(w, env);
    PromotableStill(site, m, w, env, r.newCommit, stacks);
    PromotionIsLegitimate(site, m, w1, r.newCommit, stacks, next, Now(w, env));
    PromotedFits(site, m, w1, r.newCommit, stacks, Now(w, env));
    MovedKeeps(site, m, w1, next);
    MemIsNoMatter(site, m, Written(w1, next), next);
  }

  lemma PromotableStill(site: Site, m: Mode, w: World, env: Env, commit: Commit, stacks: seq<Stack>)
    requires Live(site, m, w) && Promotable(site, m, w, commit, stacks)
    ensures Promotable(site, m, Tick(w, env), commit, stacks) && Live(site, m, Tick(w, env))
        && Inv(site, m, Tick(w, env))
  {
    hide Live, Inv, Judged, Met;
    TickKeeps(site, m, w, env);
    LiveIsInv(site, m, Tick(w, env));
  }

  lemma LiveIsInv(site: Site, m: Mode, w: World)
    requires Live(site, m, w)
    ensures Inv(site, m, w)
  {
  }

  lemma MemIsNoMatter(site: Site, m: Mode, w: World, mem: State)
    requires Inv(site, m, w)
    ensures Inv(site, m, w.(mem := mem))
  {
    hide Chronicle, Marked, Open;
  }

  /** A save that moves the rollback target. */
  lemma MovedKeeps(site: Site, m: Mode, w: World, next: State)
    requires Inv(site, m, w) && Legitimate(site, w.disk, next, w.tree, w.seen) && Fit(site, m, Written(w, next), next)
    ensures Inv(site, m, Written(w, next))
  {
    ChronicleMoves(site, m, w.disk, next, w.log, w.tree, w.seen);
    hide Chronicle, Marked, Open, Legitimate, Fit;
  }

  lemma PromotionIsLegitimate(site: Site, m: Mode, w: World, commit: Commit, stacks: seq<Stack>, next: State,
      now: Instant)
    requires Live(site, m, w) && Promotable(site, m, w, commit, stacks)
        && next == PromotedOf(w.mem, commit, Names(stacks), now)
    requires SetOf(w.mem.lastHealthyStacks) <= w.seen.former && w.seen.former - NameSet(stacks) <= w.seen.down
    ensures Legitimate(site, w.disk, next, w.tree, w.seen)
  {
    hide Chronicle, Marked, Open, Fit;
  }

  lemma PromotedFits(site: Site, m: Mode, w: World, commit: Commit, stacks: seq<Stack>, now: Instant)
    requires Live(site, m, w) && Promotable(site, m, w, commit, stacks)
    requires m.counts ==> w.running !! (SetOf(w.mem.lastHealthyStacks) - NameSet(stacks))
    ensures var next := PromotedOf(w.mem, commit, Names(stacks), now); Fit(site, m, Written(w, next), next)
  {
    hide Chronicle, Marked, Open, Settles, Judged, Met;
  }

  lemma TearDownKeepsPromotable(site: Site, m: Mode, w: World, env: Env, commit: Commit, stacks: seq<Stack>,
      vanished: seq<Stack>)
    requires Live(site, m, w) && Promotable(site, m, w, commit, stacks)
    requires Vanishes(w, stacks, vanished)
    ensures var s := TearDown(w, env, Names(vanished));
      && Live(site, m, s.w)
      && (s.Done? && s.value.NoFault? ==>
            && Promotable(site, m, s.w, commit, stacks)
            && SetOf(s.w.mem.lastHealthyStacks) <= s.w.seen.former && s.w.seen.former - NameSet(stacks) <= s.w.seen.down
            && s.w.running !! (SetOf(s.w.mem.lastHealthyStacks) - NameSet(stacks)))
  {
    hide Chronicle, Marked, Open, Settles;
    TearDownKeeps(site, m, w, env, Names(vanished));
    TearDownDirty(w, env, Names(vanished));
  }

  lemma {:induction false} TearDownDirty(w: World, env: Env, names: seq<Name>)
    ensures forall n :: n in TearDown(w, env, names).w.dirty ==>
        n in w.dirty && TearDown(w, env, names).w.dirty[n] == w.dirty[n]
    decreases |names|
  {
    if names != [] {
      var r := env.reply(w.tick);
      TearDownDirty(Stopped(Tick(w, env), names[0], r.Ok? || (r.Crash? && env.lands(w.tick))), env, names[1..]);
    }
  }

  lemma TearDownAndPromoteKeeps(site: Site, m: Mode, w: World, env: Env, r: Result, stacks: seq<Stack>,
      vanished: seq<Stack>)
    requires Live(site, m, w) && Promotable(site, m, w, r.newCommit, stacks)
    requires Vanishes(w, stacks, vanished)
    ensures Inv(site, m, TearDownAndPromote(site, env, w, r, stacks, vanished).w)
  {
    hide Chronicle, Marked, Open, Settles;
    TearDownKeepsPromotable(site, m, w, env, r.newCommit, stacks, vanished);
    var s := TearDown(w, env, Names(vanished));
    if s.Done? && s.value.Fault? {
      AbortBeforeUpKeeps(site, m, s.w, env, r);
    } else if s.Done? {
      PromoteKeeps(site, m, s.w, env, r, stacks);
    }
  }

  lemma ApplyNothingKeeps(site: Site, m: Mode, w: World, env: Env, r: Result, stacks: seq<Stack>, vanished: seq<Stack>,
      unsure: bool)
    requires Live(site, m, w)
    requires unsure || Promotable(site, m, w, r.newCommit, stacks)
    requires Vanishes(w, stacks, vanished)
    ensures Inv(site, m, ApplyNothing(site, env, w, r, stacks, vanished, unsure).w)
  {
    hide Chronicle, Marked, Open, Settles;
    TearDownKeeps(site, m, w, env, Names(vanished));
    if !unsure {
      TearDownKeepsPromotable(site, m, w, env, r.newCommit, stacks, vanished);
    }
    var s := TearDown(w, env, Names(vanished));
    if s.Done? && s.value.Fault? {
      AbortBeforeUpKeeps(site, m, s.w, env, r);
    } else if s.Done? && !unsure {
      PromoteKeeps(site, m, s.w, env, r.(skipped := true), stacks);
    }
  }

  /** The pending record is durable, and names exactly the stacks about to be brought up. */
  ghost predicate Announced(site: Site, m: Mode, w: World, commit: Commit, stacks: seq<Stack>, changed: seq<Stack>) {
    && w.mem == w.disk
    && w.tree == commit == w.mem.pendingCommit != NO_COMMIT
    && w.mem.pendingStacks == Names(changed) && changed != []
    && (!m.forced ==> !w.loaded.IsKnownBad(commit))
    && stacks == site.stacksAt(commit)
    && NameSet(changed) <= NameSet(stacks)
    && Considered(w, stacks)
    && Met(w.seen, NameSet(changed))
    && (forall n :: (n, Aside) in w.seen.needs ==> n !in NameSet(changed))
  }

  lemma WatchAndSettleKeeps(site: Site, m: Mode, w: World, env: Env, r: Result, stacks: seq<Stack>,
      changed: seq<Stack>, vanished: seq<Stack>)
    requires Live(site, m, w) && Announced(site, m, w, r.newCommit, stacks, changed)
    requires Vanishes(w, stacks, vanished)
    requires NameSet(changed) <= w.seen.up
    requires m.traces ==> forall n :: n in w.dirty ==> w.dirty[n] == r.newCommit != w.disk.lastHealthy
    ensures Inv(site, m, WatchAndSettle(site, env, w, r, stacks, changed, vanished).w)
  {
    hide Chronicle, Marked, Open, Settles;
    WatchKeeps(site, m, w, env, Names(changed));
    var s := Watch(w, env, Names(changed));
    if s.Crashed? { return; }
    if s.value.0.Fault? {
      AbortBeforeUpKeeps(site, m, s.w, env, r);
    } else if s.value.1 {
      assert changed[0].project in s.w.seen.up;
      TearDownAndPromoteKeeps(site, m, s.w, env, r, stacks, vanished);
    } else {
      FailAndRevertKeeps(site, m, s.w, env, changed, r);
    }
  }

  lemma AnnouncedMayStart(site: Site, m: Mode, w: World, commit: Commit, stacks: seq<Stack>, changed: seq<Stack>)
    requires Live(site, m, w) && Announced(site, m, w, commit, stacks, changed)
    ensures forall n :: n in Names(changed) ==> MayStart(m, w, n)
    ensures Covers(m, w, NameSet(changed))
  {
    hide Chronicle, Marked, Open, Settles;
  }

  /** Bringing projects up touches those, and marks each that came up with the commit. */
  lemma {:induction false} UpAllTouches(w: World, env: Env, names: seq<Name>)
    ensures var s := UpAll(w, env, names);
      && s.w.tree == w.tree && s.w.disk == w.disk
      && s.w.dirty.Keys <= w.dirty.Keys + SetOf(names)
      && (forall n :: n in s.w.dirty && n !in names ==> n in w.dirty && s.w.dirty[n] == w.dirty[n])
      && (s.Done? && s.value.NoFault? ==>
          forall n :: n in names && n in s.w.dirty ==> s.w.dirty[n] == w.tree != w.disk.lastHealthy)
    decreases |names|
  {
    if names != [] {
      UpAllTouches(Up(w, env, names[0]).w, env, names[1..]);
    }
  }

  lemma UpAndWatchKeeps(site: Site, m: Mode, w: World, env: Env, r: Result, stacks: seq<Stack>, changed: seq<Stack>,
      vanished: seq<Stack>)
    requires Live(site, m, w) && Announced(site, m, w, r.newCommit, stacks, changed)
    requires Vanishes(w, stacks, vanished)
    ensures Inv(site, m, UpAndWatch(site, env, w, r, stacks, changed, vanished).w)
  {
    hide Inv, Fit, MayStart, FailAndRevert, WatchAndSettle, Incomplete, UpAll;
    AnnouncedMayStart(site, m, w, r.newCommit, stacks, changed);
    UpAllKeeps(site, m, w, env, Names(changed));
    UpAllTouches(w, env, Names(changed));
    var s := UpAll(w, env, Names(changed));
    if s.Crashed? { return; }
    if s.value.Fault? {
      AnnouncedMayStart(site, m, s.w, r.newCommit, stacks, changed);
      AbortBeforeUpKeeps(site, m, s.w, env, r);
      FailAndRevertKeeps(site, m, s.w, env, changed, r);
    } else {
      WatchAndSettleKeeps(site, m, s.w, env, r.(applied := true), stacks, changed, vanished);
    }
  }

  /** The commit has all these pending stacks. */
  predicate HasAll(site: Site, s: State, commit: Commit) {
    SetOf(s.pendingStacks) <= NameSet(site.stacksAt(commit))
  }

  /** Dropping these pending stacks for the commit leaves nobody behind. */
  predicate Leaves(site: Site, s: State, commit: Commit) {
    SetOf(s.pendingStacks) <= SetOf(s.lastHealthyStacks) + NameSet(site.stacksAt(commit))
  }

  /** A commit this run may apply: a fresh one with nothing pending, the pending one, or one that supersedes it. */
  predicate Applicable(site: Site, m: Mode, w: World, r: Result, pendingStacks: seq<Name>) {
    && !w.mem.RevertInProgress()
    && (!m.forced ==> !w.loaded.IsKnownBad(r.newCommit) && !w.mem.IsKnownBad(r.newCommit))
    && (|| (!w.mem.Pending() && pendingStacks == [])
        || (r.newCommit == w.mem.pendingCommit && pendingStacks == w.mem.pendingStacks && r.files == [])
        || (&& m.superseded && pendingStacks == [] && r.files == []
            && (m.counts ==> Leaves(site, w.mem, r.newCommit))
            && (m.traces ==> HasAll(site, w.mem, r.newCommit))))
    && (m.retried || r.newCommit != w.mem.lastHealthy)
  }

  lemma PendingFits(site: Site, m: Mode, w: World, r: Result, pendingStacks: seq<Name>, changed: seq<Stack>,
      now: Instant)
    requires Live(site, m, w) && Applicable(site, m, w, r, pendingStacks)
    requires w.tree == r.newCommit != NO_COMMIT && changed != [] && NameSet(changed) <= NameSet(site.stacksAt(w.tree))
    requires SetOf(pendingStacks) <= NameSet(changed) && now > 0
    requires m.counts ==> w.running <= SetOf(w.mem.lastHealthyStacks) + NameSet(changed)
    requires m.traces ==> w.dirty.Keys <= NameSet(changed)
    ensures Fit(site, m, w, PendingOf(w.mem, r.newCommit, Names(changed), now))
  {
    hide Chronicle, Marked, Open, Settles;
    assert Names(changed) != [];
  }

  lemma ApplyChangedKeeps(site: Site, m: Mode, w: World, env: Env, r: Result, pendingStacks: seq<Name>,
      stacks: seq<Stack>, changed: seq<Stack>, vanished: seq<Stack>)
    requires Live(site, m, w) && Applicable(site, m, w, r, pendingStacks)
    requires w.tree == r.newCommit != NO_COMMIT && stacks == site.stacksAt(w.tree)
    requires changed != [] && NameSet(changed) <= NameSet(stacks) && SetOf(pendingStacks) <= NameSet(changed)
    requires Considered(w, stacks) && Met(w.seen, NameSet(changed)) && forall n :: (n, Aside) in w.seen.needs ==>
        n !in NameSet(changed)
    requires m.counts ==> w.running <= SetOf(w.mem.lastHealthyStacks) + NameSet(changed)
    requires m.traces ==> w.dirty.Keys <= NameSet(changed)
    requires Vanishes(w, stacks, vanished)
    ensures Inv(site, m, ApplyChanged(site, env, w, r, stacks, changed, vanished).w)
  {
    hide Chronicle, Marked, Open, Settles;
    hide UpAndWatch, AbortApply, AbortBeforeUp;
    LoadAllKeeps(site, m, w, env, Names(changed));
    var s1 := LoadAll(w, env, Names(changed));
    if s1.Crashed? { return; }
    if s1.value.Fault? {
      AbortApplyKeeps(site, m, s1.w, env, r, s1.value.infra);
      return;
    }
    PullAllKeeps(site, m, s1.w, env, Names(changed));
    var s2 := PullAll(s1.w, env, Names(changed));
    if s2.Crashed? { return; }
    if s2.value.Fault? {
      AbortApplyKeeps(site, m, s2.w, env, r, s2.value.infra);
      return;
    }
    PendingFits(site, m, s2.w, r, pendingStacks, changed, Now(s2.w, env));
    var next := PendingOf(s2.w.mem, r.newCommit, Names(changed), Now(s2.w, env));
    SaveNextKeeps(site, m, s2.w, env, next);
    var s3 := SaveNext(s2.w, env, next);
    if s3.Crashed? { return; }
    if !s3.value {
      AbortBeforeUpKeeps(site, m, s3.w, env, r);
    } else {
      UpAndWatchKeeps(site, m, s3.w, env, r, stacks, changed, vanished);
    }
  }

  lemma ChosenProperties(site: Site, m: Mode, w: World, env: Env, r: Result, pendingStacks: seq<Name>)
    requires Live(site, m, w) && Applicable(site, m, w, r, pendingStacks) && w.tree == r.newCommit != NO_COMMIT
    ensures var stacks := site.stacksAt(w.tree);
      var (changed, unsure) := Chosen(env, w.mem, r, stacks, pendingStacks);
      && NameSet(changed) <= NameSet(stacks) && SetOf(pendingStacks) <= NameSet(changed)
      && (m.counts ==> w.running <= SetOf(w.mem.lastHealthyStacks) + NameSet(changed))
      && (m.traces ==> w.dirty.Keys <= NameSet(changed))
  {
    hide Chronicle, Marked, Open, Settles;
    assert pendingStacks != [] ==> pendingStacks[0] in SetOf(pendingStacks);
    assert SetOf([]) == {};
  }

  /** The choice answers the needs. */
  lemma ChoiceMeetsNeeds(env: Env, mem: State, r: Result, stacks: seq<Stack>, pendingStacks: seq<Name>, seen: Evidence)
    requires seen.needs == NeedsOf(env, mem, r, stacks, pendingStacks)
    ensures var (changed, unsure) := Chosen(env, mem, r, stacks, pendingStacks);
      && Met(seen, NameSet(changed))
      && (forall n :: n in NameSet(stacks) ==> Judged(seen, n))
      && (mem.lastHealthy == NO_COMMIT ==> forall n, k :: (n, k) in seen.needs ==> k == Required)
      && (forall n :: (n, Aside) in seen.needs ==> n !in NameSet(changed) && changed != [])
      && (forall n :: (n, Unweighed) in seen.needs ==> unsure)
  {
    hide Weighed, Restrict;
    var (changed, unsure) := Chosen(env, mem, r, stacks, pendingStacks);
    WeighedMeans(env, stacks);
    forall n | n in NameSet(stacks) ensures Judged(seen, n) {
      var s :| s in stacks && s.project == n;
      assert (n, NeedOf(env, mem, r, pendingStacks, s)) in seen.needs;
    }
    forall n | (n, Required) in seen.needs ensures n in NameSet(changed) {
      var s :| s in stacks && (n, Required) == (s.project, NeedOf(env, mem, r, pendingStacks, s));
      if mem.lastHealthy == NO_COMMIT || r.files != [] {
        assert s in changed;
      }
    }
  }

  lemma SeenKeeps(site: Site, m: Mode, w: World, seen: Evidence)
    requires Live(site, m, w)
    ensures Live(site, m, w.(seen := seen))
  {
    hide Chronicle, Marked, Open, Settles;
  }

  lemma NothingIsPromotable(site: Site, m: Mode, w: World, commit: Commit, stacks: seq<Stack>, unsure: bool)
    requires Live(site, m, w) && w.tree == commit != NO_COMMIT && stacks == site.stacksAt(commit)
    requires Considered(w, stacks) && Met(w.seen, {}) && forall n :: (n, Aside) !in w.seen.needs
    requires forall n :: (n, Unweighed) in w.seen.needs ==> unsure
    requires m.counts ==> w.running <= SetOf(w.mem.lastHealthyStacks)
    requires m.traces ==> w.dirty.Keys == {}
    ensures unsure || Promotable(site, m, w, commit, stacks)
  {
    hide Chronicle, Marked, Open, Settles;
    assert SetOf([]) == {};
  }

  lemma ApplyAndWatchKeeps(site: Site, m: Mode, w: World, env: Env, r: Result, previous: seq<Stack>,
      pendingStacks: seq<Name>)
    requires Live(site, m, w) && Applicable(site, m, w, r, pendingStacks)
    requires SetOf(w.mem.lastHealthyStacks) <= NameSet(previous)
    ensures Inv(site, m, ApplyAndWatch(site, env, w, r, previous, pendingStacks).w)
  {
    hide ApplyChanged, ApplyNothing, AbortApply, AbortBeforeUp, Checkout, Inv, Fit, Chosen;
    CheckoutKeeps(site, m, w, env, r.newCommit);
    var s1 := Checkout(w, env, r.newCommit);
    if s1.Crashed? { return; }
    if s1.value.Fault? {
      AbortBeforeUpKeeps(site, m, s1.w, env, r);
      return;
    }
    AskKeeps(site, m, s1.w, env);
    var s2 := Discover(site, env, s1.w);
    if s2.Crashed? { return; }
    if s2.value.0.Fault? {
      AbortApplyKeeps(site, m, s2.w, env, r, s2.value.0.infra);
      return;
    }
    ChosenProperties(site, m, s2.w, env, r, pendingStacks);
    var stacks := s2.value.1;
    var (changed, unsure) := Chosen(env, s2.w.mem, r, stacks, pendingStacks);
    var w3 := s2.w.(seen := s2.w.seen.(needs := NeedsOf(env, s2.w.mem, r, stacks, pendingStacks),
        former := NameSet(previous)));
    ChoiceMeetsNeeds(env, s2.w.mem, r, stacks, pendingStacks, w3.seen);
    SeenKeeps(site, m, s2.w, w3.seen);
    if changed == [] {
      NothingIsPromotable(site, m, w3, r.newCommit, stacks, unsure);
      ApplyNothingKeeps(site, m, w3, env, r, stacks, Vanished(previous, stacks), unsure);
    } else {
      ApplyChangedKeeps(site, m, w3, env, r, pendingStacks, stacks, changed, Vanished(previous, stacks));
    }
  }

  lemma AdvanceCheckoutKeeps(site: Site, m: Mode, w: World, env: Env, r: Result)
    requires Live(site, m, w)
    ensures Inv(site, m, AdvanceCheckout(w, env, r).w)
  {
    hide Chronicle, Mark, Marked, Open;
    CheckoutKeeps(site, m, w, env, r.newCommit);
    var s := Checkout(w, env, r.newCommit);
    AbortBeforeUpKeeps(site, m, s.w, env, r);
    NotedFits(site, m, s.w, r.newCommit, Now(s.w, env));
    hide Fit, AbortBeforeUp;
    SaveNextKeeps(site, m, s.w, env, CheckoutOf(s.w.mem, r.newCommit, Now(s.w, env)));
  }

  lemma NotedFits(site: Site, m: Mode, w: World, commit: Commit, now: Instant)
    requires Live(site, m, w)
    ensures Fit(site, m, w, CheckoutOf(w.mem, commit, now))
  {
    hide Chronicle, Marked, Open;
  }

  lemma IdleCovers(site: Site, m: Mode, w: World, names: set<Name>)
    requires Live(site, m, w) && !w.mem.Pending()
    ensures Covers(m, w, names) && w.mem.pendingCommit == NO_COMMIT
  {
    hide Chronicle, Marked, Open, Settles;
    assert SetOf(w.mem.pendingStacks) == {};
  }

  lemma CountBlockKeeps(site: Site, m: Mode, w: World, env: Env, r: Result, previous: seq<Stack>)
    requires Live(site, m, w) && !w.mem.Pending()
    ensures Inv(site, m, CountBlock(site, env, w, r, previous).w)
  {
    hide Chronicle, Marked, Open, Settles;
    hide DoRevert;
    if w.mem.preflightBlocks >= MAX_PREFLIGHT_BLOCKS {
      DegradeKeeps(site, m, w, env, NO_COMMIT, w.mem.lastHealthy);
    } else {
      var next := w.mem.(preflightBlocks := w.mem.preflightBlocks + 1);
      SaveNextKeeps(site, m, w, env, next);
      var s := SaveNext(w, env, next);
      if s.Done? {
        IdleCovers(site, m, s.w, NameSet(previous));
        DoRevertKeeps(site, m, s.w, env, previous);
      }
    }
  }

  lemma PreflightBlockedKeeps(site: Site, m: Mode, w: World, env: Env, force: bool, r: Result, previous: seq<Stack>)
    requires Live(site, m, w) && !w.mem.Pending()
    ensures Inv(site, m, PreflightBlocked(site, env, force, w, r, previous).w)
  {
    hide Chronicle, Marked, Open, Settles;
    CountBlockKeeps(site, m, if force then w.(mem := w.mem.(preflightBlocks := 0)) else w, env, r, previous);
  }

  lemma PassGateKeeps(site: Site, m: Mode, w: World, env: Env, r: Result, previous: seq<Stack>)
    requires Live(site, m, w) && !w.mem.Pending() && Applicable(site, m, w, r, [])
    ensures Inv(site, m, PassGate(site, env, w, r, previous).w)
  {
    hide Chronicle, Marked, Open, Settles;
    hide ApplyAndWatch;
    SaveNextKeeps(site, m, w, env, w.mem.(preflightBlocks := 0));
    var s := ClearBlocks(w, env);
    if s.Done? {
      ApplyAndWatchKeeps(site, m, s.w, env, r, Deployed(s.w.mem.lastHealthyStacks, previous), []);
    }
  }

  lemma GateKeeps(site: Site, m: Mode, w: World, env: Env, opts: Options, r: Result)
    requires Live(site, m, w) && !w.mem.Pending() && Applicable(site, m, w, r, [])
    ensures Inv(site, m, Gate(site, env, opts, w, r).w)
  {
    AskKeeps(site, m, w, env);
    AskKeeps(site, m, Ask(w, env).w, env);
    assert Inv(site, m, Ask(w, env).w) && Inv(site, m, Ask(Ask(w, env).w, env).w);
    hide Live, Inv, PassGate, PreflightBlocked, RecordOutcome;
    var s1 := Discover(site, env, w);
    if s1.Crashed? || (s1.value.0.Fault? && s1.w.cancelled) { return; }
    var previous := if s1.value.0.Fault? then Deployed(s1.w.mem.lastHealthyStacks, []) else s1.value.1;
    var s2 := Judge(s1.w, env);
    if s2.Crashed? { return; }
    if s2.value.0.Fault? {
      RecordOutcomeKeeps(site, m, s2.w, env, FailedPreflight, r.newCommit);
    } else if opts.dryRun {
    } else if !s2.value.1 {
      PreflightBlockedKeeps(site, m, s2.w, env, opts.force, r, previous);
    } else {
      PassGateKeeps(site, m, s2.w, env, r, previous);
    }
  }

  /** With nothing pending, this branch head makes a run attempt the rollback target itself. */
  predicate Retries(s: State, tree: Commit, branch: Commit) {
    branch == s.lastHealthy && (tree != branch || Drifted(s, tree))
  }

  lemma RunNormalKeeps(site: Site, m: Mode, w: World, env: Env, opts: Options)
    requires Live(site, m, w) && !w.mem.Pending() && w.loaded == w.mem && (opts.force ==> m.forced)
    requires Retries(w.mem, w.tree, env.branch) ==> m.retried
    ensures Inv(site, m, RunNormal(site, env, opts, w).w)
  {
    AskKeeps(site, m, w, env);
    assert Inv(site, m, Ask(w, env).w);
    hide Live, Inv, Gate, AdvanceCheckout, RecordOutcome;
    var s := Fetch(w, env);
    if s.Crashed? { return; }
    if s.value.FetchFailed? {
      RecordOutcomeKeeps(site, m, s.w, env, FailedGit, NO_COMMIT);
      return;
    }
    var g := s.value;
    var r := BLANK.(changed := g.changed, oldCommit := g.head, newCommit := g.tip, files := if g.changed then env.diff
        else []);
    if !g.changed && !Drifted(s.w.mem, g.head) {
    } else if s.w.mem.IsKnownBad(g.tip) && !opts.force {
      RecordOutcomeKeeps(site, m, s.w, env, SkippedKnownBad, g.tip);
    } else if env.windowClosed && g.changed {
    } else if g.changed && s.w.mem.lastHealthy != NO_COMMIT && !env.relevant {
      AdvanceCheckoutKeeps(site, m, s.w, env, r.(skipped := true));
    } else {
      GateKeeps(site, m, s.w, env, opts, r.(changed := true));
    }
  }
}
