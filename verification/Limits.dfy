/** Where the code does less than a reader might expect of it, with the condition that decides it: what a dry run
    writes, and runs that leave a record DEGRADED and pending, hold the rollback target as known-bad, or leave a
    project behind. */
module Limits {
  import opened Records
  import opened Stacks
  import opened Protocol
  import opened Safety
  import opened ApplySafety
  import opened RunSafety
  import opened Reverts
  import opened Convergence
  import opened Theorems

  /*** Dry runs ***/

  /** A save at this call takes effect. */
  predicate Lands(env: Env, t: nat) {
    env.reply(t).Ok? || env.lands(t)
  }

  /** What makes a dry run write, all of it before the dry-run test: a fetch that fails or a branch or HEAD without a
      commit, recorded unless shutting down; a branch head refused as known-bad, recorded; an irrelevant change,
      checked out; and a failed snapshot, recorded unless shutting down. */
  predicate DryWrites(w: World, env: Env, force: bool) {
    && env.reply(0).Ok? && Awake(w.disk, env) && (w.disk.lastResult != Degraded || force) && !w.disk.Pending()
    && !env.reply(1).Crash?
    && if Unfetched(w.tree, env) then !env.cancels(0) && !env.cancels(1) && Lands(env, 2)
        else DryFetchedWrites(w.disk, w.tree, env, force)
  }

  predicate Unfetched(tree: Commit, env: Env) {
    env.reply(1).Fail? || (tree != env.branch && (tree == NO_COMMIT || env.branch == NO_COMMIT))
  }

  predicate DryFetchedWrites(s: State, tree: Commit, env: Env, force: bool) {
    var moved := tree != env.branch;
    && (moved || Drifted(s, tree))
    && (if s.IsKnownBad(env.branch) && !force then Lands(env, 2)
        else if moved && env.windowClosed then false
        else (moved && s.lastHealthy != NO_COMMIT && !env.relevant) || DryGateWrites(env))
  }

  predicate DryGateWrites(env: Env) {
    !env.reply(2).Crash? && env.reply(3).Fail? && !env.cancels(0) && !env.cancels(1) && !env.cancels(2)
        && !env.cancels(3) && Lands(env, 4)
  }

  /** Nothing was written. */
  predicate LeftAlone(w: World, w': World) {
    w'.log == w.log && w'.disk == w.disk && w'.tree == w.tree && w'.running == w.running
  }

  lemma OutcomeIsLogged(w: World, env: Env, verdict: Verdict, commit: Commit)
    ensures var w' := RecordOutcome(w, env, verdict, commit).w;
        if Lands(env, w.tick) then |w'.log| == |w.log| + 1 else LeftAlone(w, w')
  {
  }

  lemma AdvanceIsLogged(w: World, env: Env, r: Result)
    requires r.newCommit != NO_COMMIT
    ensures |AdvanceCheckout(w, env, r).w.log| > |w.log|
  {
    hide AbortBeforeUp;
    var s := Checkout(w, env, r.newCommit);
    AbortIsQuiet(s.w, env, r);
  }

  lemma DryGateLogs(site: Site, w: World, env: Env, force: bool, r: Result)
    requires w.tick == 2 && w.cancelled == (env.cancels(0) || env.cancels(1))
    ensures var w' := Gate(site, env, Options(true, force), w, r).w;
        if DryGateWrites(env) then |w'.log| == |w.log| + 1 else LeftAlone(w, w')
  {
    hide PassGate, PreflightBlocked, RecordOutcome;
    OutcomeIsLogged(Judge(Discover(site, env, w).w, env).w, env, FailedPreflight, r.newCommit);
  }

  /** The normal path of a dry run, entered after its first call. */
  lemma DryNormalLogs(site: Site, w: World, env: Env, force: bool)
    requires w.tick == 1 && w.cancelled == env.cancels(0) && w.mem == w.disk
    ensures var w' := RunNormal(site, env, Options(true, force), w).w;
      if env.reply(1).Crash? then LeftAlone(w, w')
      else if Unfetched(w.tree, env) then
        if !env.cancels(0) && !env.cancels(1) && Lands(env, 2) then w'.log != w.log else LeftAlone(w, w')
      else if DryFetchedWrites(w.disk, w.tree, env, force) then w'.log != w.log else LeftAlone(w, w')
  {
    hide Gate, AdvanceCheckout, RecordOutcome, DryGateWrites, Lands, Drifted;
    var w2 := Fetch(w, env).w;
    var r := BLANK.(changed := w.tree != env.branch, oldCommit := w.tree, newCommit := env.branch,
        files := if w.tree != env.branch then env.diff else []);
    if env.reply(1).Crash? { return; }
    if Unfetched(w.tree, env) {
      OutcomeIsLogged(w2, env, FailedGit, NO_COMMIT);
    } else if w.disk.IsKnownBad(env.branch) && !force {
      OutcomeIsLogged(w2, env, SkippedKnownBad, env.branch);
    } else if w.tree != env.branch && w.disk.lastHealthy != NO_COMMIT && !env.relevant {
      AdvanceIsLogged(w2, env, r.(skipped := true));
    } else {
      DryGateLogs(site, w2, env, force, r.(changed := true));
    }
  }

  /** In every environment, a dry run leaves the log, the record, the worktree and Docker as they were exactly when
      DryWrites does not hold. */
  lemma DryRunWritesExactly(site: Site, w: World, env: Env, force: bool)
    ensures var w' := After(site, w, Attempt(Options(true, force), env));
      (DryWrites(w, env, force) <==> w'.log != w.log) && (!DryWrites(w, env, force) ==> LeftAlone(w, w'))
  {
    hide RunNormal, Unfetched, DryFetchedWrites, Lands;
    var w1 := Ask(Begin(w), env).w.(mem := w.disk, loaded := w.disk);
    DryNormalLogs(site, w1, env, force);
  }

  /** Such a run: HEAD is at the rollback target, the branch has moved on by a change that is irrelevant, and the dry
      run checks the new commit out and records it. */
  lemma DryRunCanWrite(site: Site, w: World)
    requires w.disk == New().(lastHealthy := "a", lastCheckout := "a", lastResult := Success) && w.tree == "a"
    ensures var env := Spoiled(0, Ok, "b", 7).(relevant := false);
      var w' := After(site, w, Attempt(Options(true, false), env));
      w'.tree == "b" && w'.disk.lastCheckout == "b"
  {
  }

  /*** Runs that get as far as their first Up ***/

  /** An environment in which nothing goes wrong, except at one call. */
  function Spoiled(at: nat, fault: Reply, branch: Commit, clock: nat): Env {
    Env(t => if t == at then fault else Ok, _ => false, _ => false, _ => NO_COMMIT, _ => true, _ => clock, branch, [],
        false, true, _ => Touched)
  }

  lemma {:induction false} LoadTakes(w: World, env: Env, names: seq<Name>)
    requires forall t :: w.tick <= t < w.tick + 2 * |names| ==> env.reply(t) == Ok && !env.cancels(t)
    ensures LoadAll(w, env, names) == Done(w.(tick := w.tick + 2 * |names|), NoFault)
    decreases |names|
  {
    if names != [] {
      LoadTakes(w.(tick := w.tick + 2), env, names[1..]);
    }
  }

  lemma {:induction false} PullTakes(w: World, env: Env, names: seq<Name>)
    requires forall t :: w.tick <= t < w.tick + |names| ==> env.reply(t) == Ok && !env.cancels(t)
    ensures var s := PullAll(w, env, names);
      s.Done? && s.value == NoFault && s.w == w.(tick := w.tick + |names|, log := s.w.log) && w.log <= s.w.log
    decreases |names|
  {
    if names != [] {
      PullTakes(Pull(w, env, names[0]).w, env, names[1..]);
    }
  }

  /** The call at which an apply of n stacks that starts at this one makes its first Up. */
  function FirstUp(tick: nat, n: nat): nat {
    tick + 3 + 3 * n
  }

  /** Nothing goes wrong from this call up to the other. */
  ghost predicate Smooth(env: Env, from: nat, to: nat) {
    forall t :: from <= t < to ==> env.reply(t) == Ok && !env.cancels(t)
  }

  /** With nothing going wrong before it, an apply that weighs no change reaches its first Up with the pending record
      durable. */
  lemma ApplyReachesUp(site: Site, env: Env, w: World, r: Result, previous: seq<Stack>, pendingStacks: seq<Name>)
    returns (w': World, changed: seq<Stack>)
    requires r.newCommit != NO_COMMIT && w.mem.lastHealthy == w.disk.lastHealthy
    requires Chosen(env, w.mem, r, site.stacksAt(r.newCommit), pendingStacks).0 != []
    requires Smooth(env, w.tick, FirstUp(w.tick, |Chosen(env, w.mem, r, site.stacksAt(r.newCommit), pendingStacks).0|))
    ensures var stacks := site.stacksAt(r.newCommit);
      && changed == Chosen(env, w.mem, r, stacks, pendingStacks).0
      && ApplyAndWatch(site, env, w, r, previous, pendingStacks)
         == UpAndWatch(site, env, w', r, stacks, changed, Vanished(previous, stacks))
      && w'.tick == FirstUp(w.tick, |changed|) && w'.running == w.running && w'.tree == r.newCommit
      && w'.cancelled == w.cancelled && w'.dirty == w.dirty && w'.loaded == w.loaded && w.log <= w'.log
      && w'.disk == w'.mem == PendingOf(w.mem, r.newCommit, Names(changed), env.clock(w'.tick - 1) + 1)
  {
    hide UpAndWatch, LoadAll, PullAll, Chosen, NeedsOf;
    var stacks := site.stacksAt(r.newCommit);
    changed := Chosen(env, w.mem, r, stacks, pendingStacks).0;
    var names := Names(changed);
    var w2 := Discover(site, env, Checkout(w, env, r.newCommit).w).w;
    var w3 := w2.(seen := w2.seen.(needs := NeedsOf(env, w2.mem, r, stacks, pendingStacks),
        former := NameSet(previous)));
    LoadTakes(w3, env, names);
    var w4 := LoadAll(w3, env, names).w;
    PullTakes(w4, env, names);
    var w5 := PullAll(w4, env, names).w;
    w' := SaveNext(w5, env, PendingOf(w5.mem, r.newCommit, names, Now(w5, env))).w;
  }

  /** Died in an Up of the commit, with these stacks durably pending. */
  ghost predicate DiesInUp(w: World, s: Step<Result>, commit: Commit, names: seq<Name>) {
    && s.Crashed? && w.running <= s.w.running
    && (exists now :: s.w.disk == PendingOf(w.mem, commit, names, now))
    && |w.log| < |s.w.log|
    && var e := s.w.log[|s.w.log| - 1];
       e.Upped? && e.tree == commit && e.loaded == w.loaded && e.durable.lastHealthy == w.mem.lastHealthy
  }

  /** The apply that dies in its first Up. */
  lemma KilledInUp(site: Site, env: Env, w: World, r: Result, previous: seq<Stack>, pendingStacks: seq<Name>)
    requires r.newCommit != NO_COMMIT && w.mem.lastHealthy == w.disk.lastHealthy
    requires Chosen(env, w.mem, r, site.stacksAt(r.newCommit), pendingStacks).0 != []
    requires var at := FirstUp(w.tick, |Chosen(env, w.mem, r, site.stacksAt(r.newCommit), pendingStacks).0|);
      Smooth(env, w.tick, at) && env.reply(at) == Crash
    ensures DiesInUp(w, ApplyAndWatch(site, env, w, r, previous, pendingStacks), r.newCommit,
                     Names(Chosen(env, w.mem, r, site.stacksAt(r.newCommit), pendingStacks).0))
  {
    hide ApplyAndWatch, Chosen;
    var w', changed := ApplyReachesUp(site, env, w, r, previous, pendingStacks);
    assert Names(changed) != [];
  }

  /** The apply whose first Up fails as the commit's fault holds the commit as known-bad, whatever the revert does. */
  lemma FailedInUp(site: Site, env: Env, w: World, r: Result, previous: seq<Stack>) returns (w': World)
    requires r.newCommit != NO_COMMIT && r.files == [] && site.stacksAt(r.newCommit) != [] && !w.cancelled
    requires w.mem.lastHealthy == w.disk.lastHealthy
    requires var at := FirstUp(w.tick, |site.stacksAt(r.newCommit)|);
      && Smooth(env, w.tick, at) && env.reply(at) == Fail(false) && !env.cancels(at) && env.reply(at + 1) == Ok
    ensures var stacks := site.stacksAt(r.newCommit);
      && ApplyAndWatch(site, env, w, r, previous, []).w == DoRevert(site, env, w', stacks, r.newCommit).w
      && ApplyAndWatch(site, env, w, r, previous, []).Done? == DoRevert(site, env, w', stacks, r.newCommit).Done?
      && w'.tick == FirstUp(w.tick, |stacks|) + 2 && w'.mem == w'.disk
      && w'.mem.IsKnownBad(r.newCommit) && w'.mem.lastHealthy == w.mem.lastHealthy
      && forall n :: n in w.dirty && n !in Names(stacks) ==> Spares(w, w', n)
  {
    hide ApplyAndWatch, DoRevert, LastN, Without;
    var stacks := site.stacksAt(r.newCommit);
    assert Chosen(env, w.mem, r, stacks, []).0 == stacks;
    var w1, changed := ApplyReachesUp(site, env, w, r, previous, []);
    assert Names(stacks) != [];
    var w2 := Up(w1, env, Names(stacks)[0]).w;
    assert UpAll(w1, env, Names(stacks)) == Done(w2, Fault(false));
    var failed := w2.mem.MarkFailed(r.newCommit).(lastResult := FailedApply);
    MarkStays(w2.mem, r.newCommit);
    w' := Save(w2.(mem := failed), env, failed).w;
  }

  /** A pause that never ends. */
  predicate PausedForGood(s: State) {
    s.pausedAt != 0 && s.pausedUntil == 0
  }

  /** The call at which a run that passes the gate starts to apply. */
  function ApplyCall(s: State): nat {
    if s.preflightBlocks == 0 then 4 else 5
  }

  /** With nothing pending, this run has a branch head to deploy, and neither a pause, DEGRADED, a known-bad head, the
      window nor relevance stands against it. */
  predicate MayApply(w: World, env: Env, force: bool) {
    && Awake(w.disk, env) && !w.disk.Pending()
    && (force || (w.disk.lastResult != Degraded && !w.disk.IsKnownBad(env.branch)))
    && w.tree != NO_COMMIT && env.branch != NO_COMMIT
    && (if w.tree == env.branch then Drifted(w.disk, w.tree)
        else !env.windowClosed && (w.disk.lastHealthy == NO_COMMIT || env.relevant))
  }

  /** A run with nothing pending and a branch head to deploy passes the gate when nothing goes wrong, and applies. */
  lemma NormalReachesApply(site: Site, w: World, env: Env, force: bool)
      returns (w': World, r: Result, previous: seq<Stack>)
    requires Smooth(env, 0, ApplyCall(w.disk)) && env.sound(3)
    requires MayApply(w, env, force)
    ensures ReconcileLocked(site, env, Options(false, force), Begin(w)) == ApplyAndWatch(site, env, w', r, previous, [])
    ensures w'.tick == ApplyCall(w.disk) && w'.running == w.running && !w'.cancelled && w'.dirty == w.dirty
    ensures w'.mem == w'.disk == w.disk.(preflightBlocks := 0) && r.newCommit == env.branch && r.oldCommit == w.tree
    ensures r.files == if w.tree != env.branch then env.diff else []
    ensures w.log <= w'.log && forall k :: |w.log| <= k < |w'.log| ==> w'.log[k].Saved?
  {
    var w1 := Ask(Begin(w), env).w.(mem := w.disk, loaded := w.disk);
    var w2 := Fetch(w1, env).w;
    r := BLANK.(changed := true, oldCommit := w.tree, newCommit := env.branch,
                files := if w.tree != env.branch then env.diff else []);
    w', previous := GateReachesApply(site, w2, env, force, r);
    hide Gate, ApplyAndWatch;
    assert RunNormal(site, env, Options(false, force), w1) == Gate(site, env, Options(false, force), w2, r);
  }

  lemma GateReachesApply(site: Site, w: World, env: Env, force: bool, r: Result)
      returns (w': World, previous: seq<Stack>)
    requires w.tick == 2 && w.mem == w.disk && !w.cancelled && env.sound(3)
    requires Smooth(env, 2, ApplyCall(w.disk))
    ensures Gate(site, env, Options(false, force), w, r) == ApplyAndWatch(site, env, w', r, previous, [])
    ensures w'.tick == ApplyCall(w.disk) && w'.running == w.running && !w'.cancelled && w'.dirty == w.dirty
    ensures w'.mem == w'.disk == w.disk.(preflightBlocks := 0)
    ensures w.log <= w'.log && forall k :: |w.log| <= k < |w'.log| ==> w'.log[k].Saved?
  {
    hide ApplyAndWatch, PreflightBlocked, RecordOutcome;
    var s3 := Discover(site, env, w);
    w' := ClearBlocks(Judge(s3.w, env).w, env).w;
    previous := Deployed(w'.mem.lastHealthyStacks, s3.value.1);
  }

  /** A recovery run counts itself and applies the superseding or the pending commit, when nothing goes wrong. */
  lemma RecoveryReachesApply(site: Site, w: World, env: Env)
    returns (w': World, r: Result, previous: seq<Stack>, pendingStacks: seq<Name>)
    requires Smooth(env, 0, 5) && env.sound(3) && Awake(w.disk, env) && w.disk.lastResult != Degraded
    requires w.disk.Pending() && !w.disk.RevertInProgress() && env.branch != NO_COMMIT && w.tree != NO_COMMIT
    requires env.branch != w.disk.pendingCommit ==> !w.disk.IsKnownBad(env.branch)
    requires env.branch == w.disk.pendingCommit ==>
      w.disk.pendingAttempts < MAX_RECOVERY_ATTEMPTS && !RecoveryExpired(site, w.disk, env.clock(2) + 1)
    ensures ReconcileLocked(site, env, Options(false, false), Begin(w))
        == ApplyAndWatch(site, env, w', r, previous, pendingStacks)
    ensures w'.tick == 5 && w'.running == w.running && !w'.cancelled && w'.dirty == w.dirty && w'.loaded == w.disk
    ensures w'.mem == w'.disk == AttemptOf(w.disk) && w.log <= w'.log
    ensures r.newCommit == env.branch && r.files == []
    ensures pendingStacks == if env.branch == w.disk.pendingCommit then w.disk.pendingStacks else []
  {
    hide ApplyAndWatch;
    var commit := w.disk.pendingCommit;
    var superseding := if env.branch == commit then NO_COMMIT else env.branch;
    var w1 := Ask(Begin(w), env).w.(mem := w.disk, loaded := w.disk);
    var w2 := Fetch(w1, env).w;
    var s3 := Discover(site, env, w2);
    var w4 := Judge(s3.w, env).w;
    w' := SaveNext(w4, env, AttemptOf(w4.mem)).w;
    previous := Deployed(w'.mem.lastHealthyStacks, s3.value.1);
    assert SupersedingCommit(w1, env, false, commit) == Done(w2, superseding);
    assert Resume(site, env, w2, commit, superseding) == Resumed(site, env, w', commit, superseding, s3.value.1, true);
    if superseding == NO_COMMIT {
      r, pendingStacks := BLANK.(newCommit := commit, oldCommit := w.disk.lastHealthy), w.disk.pendingStacks;
    } else {
      r, pendingStacks := BLANK.(changed := true, newCommit := env.branch, oldCommit := commit), [];
    }
  }

  /*** DEGRADED and pending at once ***/

  /** From any DEGRADED record that a forced run can start from, and any branch head with stacks, some forced run
      leaves the record DEGRADED and pending. As long as there is none, there is no such record: see RecordsStayClean.
      */
  lemma ForcedRunLeavesDegradedPending(site: Site, w: World, branch: Commit) returns (env: Env)
    requires w.disk.lastResult == Degraded && !w.disk.Pending() && !PausedForGood(w.disk)
    requires w.tree != NO_COMMIT && branch != NO_COMMIT && (w.tree != branch || Drifted(w.disk, w.tree))
        && site.stacksAt(branch) != []
    ensures env.branch == branch
    ensures var s := After(site, w, Attempt(Options(false, true), env)).disk; s.lastResult == Degraded && s.Pending()
  {
    var a := ApplyCall(w.disk);
    env := Spoiled(FirstUp(a, |site.stacksAt(branch)|), Crash, branch, w.disk.pausedUntil);
    hide ReconcileLocked, ApplyAndWatch;
    var w', r, previous := NormalReachesApply(site, w, env, true);
    KilledInUp(site, env, w', r, previous, []);
  }

  /*** A forced run out of DEGRADED ***/

  /** From any DEGRADED record with nothing pending, a forced run whose fetch fails leaves DEGRADED and settles
      nothing: a project that ran unnamed by the record still does, and one that an apply had touched is still
      unsettled. With what runs, or what was touched, accounted for when it starts, it does no harm: see NoOrphans and
      RevertConserves. */
  lemma RevivalSettlesNothing(site: Site, w: World, branch: Commit) returns (env: Env)
    requires w.disk.lastResult == Degraded && !w.disk.Pending() && !PausedForGood(w.disk)
    ensures env.branch == branch
    ensures var w' := After(site, w, Attempt(Options(false, true), env));
      && w'.disk.lastResult != Degraded && !w'.disk.Pending()
      && w'.disk.lastHealthyStacks == w.disk.lastHealthyStacks && w'.running == w.running
      && forall n :: n in w.dirty ==> n in w'.dirty
  {
    env := Spoiled(1, Fail(true), branch, w.disk.pausedUntil);
    hide RecordHistory, LastN, Extend;
    var s := ReconcileLocked(site, env, Options(false, true), Begin(w));
    HistoryWrites(s.w, env, s.value, Now(Begin(w), env));
  }

  /*** A known-bad commit that is pending and not being reverted ***/

  /** From any such record an unforced run can start from, some unforced run brings the known-bad commit up. With a
      guarded record none does: see KnownBadIsNeverApplied. */
  lemma UnguardedCommitIsApplied(site: Site, w: World, now: nat) returns (env: Env)
    requires w.disk.Pending() && !Guarded(w.disk) && w.disk.pendingCommit != w.disk.lastHealthy
    requires w.disk.lastResult != Degraded && !w.disk.Paused(now + 1) && w.tree != NO_COMMIT
    requires w.disk.pendingAttempts < MAX_RECOVERY_ATTEMPTS && !RecoveryExpired(site, w.disk, now + 1)
    requires site.stacksAt(w.disk.pendingCommit) != []
    ensures EndsInKnownBadUp(w, After(site, w, Attempt(Options(false, false), env)), w.disk.pendingCommit)
  {
    var commit := w.disk.pendingCommit;
    var stacks := site.stacksAt(commit);
    var n := if w.disk.lastHealthy == NO_COMMIT then |stacks| else |Restrict(stacks, w.disk.pendingStacks)|;
    env := Spoiled(FirstUp(5, n), Crash, commit, now);
    hide After, EndsInKnownBadUp, Restrict, RecoveryExpired;
    UnguardedRun(site, w, env, n, now);
  }

  lemma UnguardedRun(site: Site, w: World, env: Env, n: nat, now: nat)
    requires w.disk.Pending() && !Guarded(w.disk) && w.disk.pendingCommit != w.disk.lastHealthy
    requires w.disk.lastResult != Degraded && !w.disk.Paused(now + 1) && w.tree != NO_COMMIT
    requires w.disk.pendingAttempts < MAX_RECOVERY_ATTEMPTS && !RecoveryExpired(site, w.disk, now + 1)
    requires site.stacksAt(w.disk.pendingCommit) != []
    requires var stacks := site.stacksAt(w.disk.pendingCommit);
      n == if w.disk.lastHealthy == NO_COMMIT then |stacks| else |Restrict(stacks, w.disk.pendingStacks)|
    requires Smooth(env, 0, FirstUp(5, n)) && env.reply(FirstUp(5, n)) == Crash && env.sound(3)
    requires env.branch == w.disk.pendingCommit && env.clock(1) == env.clock(2) == now
    ensures EndsInKnownBadUp(w, After(site, w, Attempt(Options(false, false), env)), w.disk.pendingCommit)
  {
    hide After, ReconcileLocked, ApplyAndWatch, EndsInKnownBadUp, Restrict, Chosen, RecoveryExpired;
    var stacks := site.stacksAt(w.disk.pendingCommit);
    var w', r, previous, pendingStacks := RecoveryReachesApply(site, w, env);
    ResumedChoice(env, w'.mem, r, stacks, pendingStacks);
    KilledInUp(site, env, w', r, previous, pendingStacks);
    var s := ApplyAndWatch(site, env, w', r, previous, pendingStacks);
    KilledUpIsLast(w, w', s.w, w.disk.pendingCommit);
    CrashedRun(site, w, env, Options(false, false));
  }

  lemma ResumedChoice(env: Env, mem: State, r: Result, stacks: seq<Stack>, pendingStacks: seq<Name>)
    requires r.files == []
    ensures Chosen(env, mem, r, stacks, pendingStacks).0
      == if mem.lastHealthy == NO_COMMIT then stacks else Restrict(stacks, pendingStacks)
  {
  }

  lemma CrashedRun(site: Site, w: World, env: Env, opts: Options)
    requires ReconcileLocked(site, env, opts, Begin(w)).Crashed?
    ensures After(site, w, Attempt(opts, env)) == ReconcileLocked(site, env, opts, Begin(w)).w
  {
    hide ReconcileLocked;
  }

  /** The last thing on the log is an Up, away from the rollback target, of a commit loaded as known-bad. */
  predicate EndsInKnownBadUp(w: World, w': World, commit: Commit) {
    |w.log| < |w'.log| &&
    var e := w'.log[|w'.log| - 1];
    e.Upped? && e.tree == commit != e.durable.lastHealthy && e.loaded.IsKnownBad(commit)
  }

  lemma KilledUpIsLast(w: World, w1: World, w': World, commit: Commit)
    requires w.log <= w1.log && |w1.log| < |w'.log|
    requires w.disk.IsKnownBad(commit) && commit != w.disk.lastHealthy
    requires var e := w'.log[|w'.log| - 1];
      e.Upped? && e.tree == commit && e.loaded == w.disk && e.durable.lastHealthy == w.disk.lastHealthy
    ensures EndsInKnownBadUp(w, w', commit)
  {
  }

  /*** A known-bad rollback target ***/

  /** From any record that has a rollback target with stacks, a branch set back to it makes some unforced run hold the
      target as known-bad: with nothing pending, when the worktree is elsewhere or has drifted. As long as no run
      attempts the target itself, it is never known-bad: see TargetIsNeverKnownBad. */
  lemma RetriedTargetIsKnownBad(site: Site, w: World) returns (env: Env)
    requires w.disk.lastHealthy != NO_COMMIT && site.stacksAt(w.disk.lastHealthy) != []
        && !w.disk.IsKnownBad(w.disk.lastHealthy)
    requires w.disk.lastResult != Degraded && !PausedForGood(w.disk) && w.tree != NO_COMMIT
    requires if w.disk.Pending() then Supersedes(w.disk, w.disk.lastHealthy, false)
        else Retries(w.disk, w.tree, w.disk.lastHealthy)
    ensures env.branch == w.disk.lastHealthy
    ensures var s := After(site, w, Attempt(Options(false, false), env)).disk;
        s.lastHealthy == w.disk.lastHealthy && s.IsKnownBad(s.lastHealthy)
  {
    var target := w.disk.lastHealthy;
    var a := if w.disk.Pending() then 5 else ApplyCall(w.disk);
    env := Spoiled(FirstUp(a, |site.stacksAt(target)|), Fail(false), target, w.disk.pausedUntil);
    hide ReconcileLocked, ApplyAndWatch, DoRevert, RecordHistory;
    var w', r, previous, none;
    if w.disk.Pending() {
      w', r, previous, none := RecoveryReachesApply(site, w, env);
    } else {
      w', r, previous := NormalReachesApply(site, w, env, false);
    }
    var w1 := FailedInUp(site, env, w', r, previous);
    RevertWrites(site, env, w1, site.stacksAt(target), target);
    var s := ApplyAndWatch(site, env, w', r, previous, []);
    if s.Done? {
      HistoryWrites(s.w, env, s.value, Now(Begin(w), env));
    }
  }

  /*** A project left behind ***/

  /** Whenever a superseding commit drops a running pending stack that is neither healthy nor one of its own, some
      unforced run leaves that project running and named by nothing in the record. Otherwise there are no orphans: see
      NoOrphans. */
  lemma SupersedingRunOrphans(site: Site, w: World, branch: Commit, n: Name) returns (env: Env)
    requires Supersedes(w.disk, branch, false) && site.stacksAt(branch) != []
    requires w.disk.lastResult != Degraded && !PausedForGood(w.disk) && w.tree != NO_COMMIT
    requires n in w.running && n !in w.disk.lastHealthyStacks && n !in Names(site.stacksAt(branch))
    ensures env.branch == branch
    ensures var w' := After(site, w, Attempt(Options(false, false), env));
      n in w'.running && n !in w'.disk.lastHealthyStacks && n !in w'.disk.pendingStacks
  {
    env := Spoiled(FirstUp(5, |site.stacksAt(branch)|), Crash, branch, w.disk.pausedUntil);
    hide ReconcileLocked, ApplyAndWatch;
    var w', r, previous, none := RecoveryReachesApply(site, w, env);
    KilledInUp(site, env, w', r, previous, []);
  }

  /** Whenever a superseding commit drops a pending stack that an apply has touched, some unforced run ends reverted,
      with nothing pending and that stack unsettled: its own first Up fails, and the revert sees its own stacks only.
      When every superseding commit has all the pending stacks, nothing is left unsettled: see RevertConserves. */
  lemma SupersedingRunStrands(site: Site, w: World, branch: Commit, n: Name) returns (env: Env, i: nat)
    requires Inv(site, ANY, w) && Supersedes(w.disk, branch, false) && site.stacksAt(branch) != []
    requires w.disk.lastResult != Degraded && w.disk.lastHealthy != NO_COMMIT && !PausedForGood(w.disk)
        && w.tree != NO_COMMIT
    requires n in w.dirty && n !in Names(site.stacksAt(branch))
    ensures env.branch == branch
    ensures Stranded(After(site, w, Attempt(Options(false, false), env)), n, i)
  {
    env := StrandingRun(site, w, branch, n);
    hide After;
    var w' := After(site, w, Attempt(Options(false, false), env));
    EveryRunKeepsOnce(site, w, Attempt(Options(false, false), env));
    i := MarkStandsFor(w'.log, n);
  }

  /** Reverted, with nothing pending, and an Up of an apply of this project that nothing has settled since. */
  predicate Stranded(w: World, n: Name, i: nat) {
    && w.disk.lastResult == Reverted && !w.disk.Pending()
    && i < |w.log| && w.log[i].Upped? && Applied(w.log[i], n, w.log[i].tree) && !SettledSince(w.log, i, n)
  }

  lemma StrandingRun(site: Site, w: World, branch: Commit, n: Name) returns (env: Env)
    requires Supersedes(w.disk, branch, false) && site.stacksAt(branch) != []
    requires w.disk.lastResult != Degraded && w.disk.lastHealthy != NO_COMMIT && !PausedForGood(w.disk)
        && w.tree != NO_COMMIT
    requires n in w.dirty && n !in Names(site.stacksAt(branch))
    ensures env.branch == branch
    ensures var w' := After(site, w, Attempt(Options(false, false), env));
      w'.disk.lastResult == Reverted && !w'.disk.Pending() && n in w'.dirty
  {
    env := Spoiled(FirstUp(5, |site.stacksAt(branch)|), Fail(false), branch, w.disk.pausedUntil);
    hide After;
    StrandingIn(site, w, env, n);
  }

  lemma StrandingIn(site: Site, w: World, env: Env, n: Name)
    requires Supersedes(w.disk, env.branch, false) && site.stacksAt(env.branch) != [] && Awake(w.disk, env)
    requires w.disk.lastResult != Degraded && w.disk.lastHealthy != NO_COMMIT && w.tree != NO_COMMIT
    requires n in w.dirty && n !in Names(site.stacksAt(env.branch)) && env.sound(3)
    requires var at := FirstUp(5, |site.stacksAt(env.branch)|);
      Smooth(env, 0, at) && env.reply(at) == Fail(false) && !env.cancels(at) && WellFrom(env, at + 1)
    ensures var w' := After(site, w, Attempt(Options(false, false), env));
      w'.disk.lastResult == Reverted && !w'.disk.Pending() && n in w'.dirty
  {
    hide ReconcileLocked, ApplyAndWatch, DoRevert, RecordHistory;
    var stacks := site.stacksAt(env.branch);
    var w1, r, previous, none := RecoveryReachesApply(site, w, env);
    var w2 := FailedInUp(site, env, w1, r, previous);
    assert n !in NameSet(stacks);
    RevertSpares(site, env, w2, stacks, env.branch, n);
    DoRevertSettles(site, env, w2, stacks, env.branch);
    var s := ApplyAndWatch(site, env, w1, r, previous, []);
    HistoryWrites(s.w, env, s.value, Now(Begin(w), env));
  }

  lemma EveryRunKeepsOnce(site: Site, w: World, t: Turn)
    requires Inv(site, ANY, w)
    ensures After(site, w, t).dirty == Marked(After(site, w, t).log)
  {
    hide After;
    TurnKeeps(site, ANY, w, t);
  }
}
