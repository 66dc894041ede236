/** What single runs come to: when a commit is blamed, when a run leaves everything alone, when it starts over, and
    what it records. Each is said over the record, the worktree and the log that the run leaves. */
module Outcomes {
  import opened Records
  import opened Stacks
  import opened Protocol
  import opened Safety
  import opened ApplySafety
  import opened RunSafety
  import opened Reverts
  import opened Convergence
  import opened Theorems
  import opened Limits
  import opened Growth

  /*** Blame ***/

  /** The later record blames no commit that the earlier one does not. */
  ghost predicate BlamesNoOther(s: State, s': State) {
    forall c :: s'.IsKnownBad(c) ==> s.IsKnownBad(c)
  }

  lemma {:induction false} LoadFails(w: World, env: Env, names: seq<Name>, f: nat)
    requires w.tick <= f < w.tick + 2 * |names| && Smooth(env, w.tick, f) && env.reply(f).Fail?
    ensures LoadAll(w, env, names)
      == Done(w.(tick := f + 1, cancelled := w.cancelled || env.cancels(f)), Fault(env.reply(f).infra))
    decreases |names|
  {
    if f >= w.tick + 2 {
      LoadFails(w.(tick := w.tick + 2), env, names[1..], f);
    }
  }

  lemma {:induction false} PullFails(w: World, env: Env, names: seq<Name>, f: nat)
    requires w.tick <= f < w.tick + |names| && Smooth(env, w.tick, f) && env.reply(f).Fail?
    ensures var s := PullAll(w, env, names);
      && s.Done? && s.value == Fault(env.reply(f).infra)
      && s.w == w.(tick := f + 1, cancelled := w.cancelled || env.cancels(f), log := s.w.log)
    decreases |names|
  {
    if f > w.tick {
      PullFails(Pull(w, env, names[0]).w, env, names[1..], f);
    }
  }

  /** Call f of an apply that starts at this call and brings n stacks up comes after its checkout and before the save
      that announces it: discovery, a load, a check of environment files, or a pull. */
  predicate BeforeUp(start: nat, n: nat, f: nat) {
    f == start + 1 || start + 2 <= f < start + 2 + 3 * n
  }

  /** An apply in which such a call fails gives up, with the commit marked in the run's own record exactly when the
      fault is the commit's. */
  lemma ApplyGivesUp(site: Site, env: Env, w: World, r: Result, previous: seq<Stack>, pendingStacks: seq<Name>, f: nat)
    returns (w': World)
    requires r.newCommit != NO_COMMIT && Smooth(env, w.tick, f) && env.reply(f).Fail?
    requires BeforeUp(w.tick, |Chosen(env, w.mem, r, site.stacksAt(r.newCommit), pendingStacks).0|, f)
    ensures ApplyAndWatch(site, env, w, r, previous, pendingStacks) == AbortBeforeUp(w', env, r)
    ensures w'.tick == f + 1 && w'.disk == w.disk && w'.running == w.running && w'.dirty == w.dirty
    ensures w'.cancelled == (w.cancelled || env.cancels(f))
    ensures w'.mem == if env.reply(f).infra then w.mem else w.mem.MarkFailed(r.newCommit)
  {
    hide AbortBeforeUp, LoadAll, PullAll, Chosen, NeedsOf, LastN, Without;
    var stacks := site.stacksAt(r.newCommit);
    var w1 := Checkout(w, env, r.newCommit).w;
    var w2 := Discover(site, env, w1).w;
    if f == w.tick + 1 {
      w' := if env.reply(f).infra then w2 else w2.(mem := w2.mem.MarkFailed(r.newCommit));
      return;
    }
    var changed := Chosen(env, w2.mem, r, stacks, pendingStacks).0;
    var names := Names(changed);
    var seen := w2.seen.(needs := NeedsOf(env, w2.mem, r, stacks, pendingStacks), former := NameSet(previous));
    var w3 := w2.(seen := seen);
    if f < w.tick + 2 + 2 * |names| {
      LoadFails(w3, env, names, f);
      var w4 := LoadAll(w3, env, names).w;
      w' := if env.reply(f).infra then w4 else w4.(mem := w4.mem.MarkFailed(r.newCommit));
    } else {
      LoadTakes(w3, env, names);
      var w4 := LoadAll(w3, env, names).w;
      PullFails(w4, env, names, f);
      var w5 := PullAll(w4, env, names).w;
      w' := if env.reply(f).infra then w5 else w5.(mem := w5.mem.MarkFailed(r.newCommit));
    }
  }

  /** The call that records the outcome of such an apply, after the worktree is put back if it was anywhere. */
  function OutcomeCall(f: nat, r: Result): nat {
    if r.oldCommit == NO_COMMIT then f + 1 else f + 2
  }

  /** Nothing keeps the outcome from being recorded. */
  predicate OutcomeLands(env: Env, f: nat, r: Result) {
    && !env.cancels(f) && Lands(env, OutcomeCall(f, r))
    && (r.oldCommit != NO_COMMIT ==> !env.cancels(f + 1) && !env.reply(f + 1).Crash?)
  }

  lemma GivingUpWrites(w: World, env: Env, r: Result, f: nat)
    requires w.tick == f + 1
    ensures var s := AbortBeforeUp(w, env, r).w.disk;
      && (s == w.disk || (s.failed == w.mem.failed && s.lastFailed == w.mem.lastFailed
          && s.Pending() == w.mem.Pending()))
      && (!w.cancelled && OutcomeLands(env, f, r) ==> s.failed == w.mem.failed && s.lastFailed == w.mem.lastFailed)
  {
  }

  lemma BlameFollowsFault(site: Site, env: Env, w: World, r: Result, previous: seq<Stack>, pendingStacks: seq<Name>,
      f: nat)
    requires r.newCommit != NO_COMMIT && Smooth(env, w.tick, f) && env.reply(f).Fail? && !w.cancelled && w.mem == w.disk
    requires BeforeUp(w.tick, |Chosen(env, w.mem, r, site.stacksAt(r.newCommit), pendingStacks).0|, f)
    ensures var s := ApplyAndWatch(site, env, w, r, previous, pendingStacks).w.disk;
      && (env.reply(f).infra ==> BlamesNoOther(w.disk, s))
      && (!env.reply(f).infra && OutcomeLands(env, f, r) ==> s.IsKnownBad(r.newCommit))
      && s.Pending() == w.disk.Pending()
  {
    hide ApplyAndWatch, AbortBeforeUp, Chosen, LastN, Without;
    var w' := ApplyGivesUp(site, env, w, r, previous, pendingStacks, f);
    GivingUpWrites(w', env, r, f);
    MarkStays(w.mem, r.newCommit);
  }

  /** How many stacks a run with nothing pending would bring up at the branch head. */
  function ChoiceSize(site: Site, w: World, env: Env): nat {
    var files := if w.tree != env.branch then env.diff else [];
    |Chosen(env, w.disk.(preflightBlocks := 0), BLANK.(newCommit := env.branch, files := files),
        site.stacksAt(env.branch), []).0|
  }

  /** When discovery at the new commit, a load, an environment file or a pull fails, the durable record blames the new
      commit if the fault is the commit's own and the outcome is recorded, and no further commit if it is
      infrastructure's. Either way nothing is pending. */
  lemma FaultDecidesBlame(site: Site, w: World, env: Env, force: bool, f: nat)
    requires MayApply(w, env, force) && env.sound(3) && Smooth(env, 0, f) && env.reply(f).Fail?
    requires BeforeUp(ApplyCall(w.disk), ChoiceSize(site, w, env), f)
    ensures var s := After(site, w, Attempt(Options(false, force), env)).disk;
      && (env.reply(f).infra ==> BlamesNoOther(w.disk, s))
      && (!env.reply(f).infra && OutcomeLands(env, f, BLANK.(oldCommit := w.tree)) ==> s.IsKnownBad(env.branch))
      && !s.Pending()
  {
    hide ReconcileLocked, ApplyAndWatch, RecordHistory, BlamesNoOther, MayApply;
    assert Smooth(env, 0, ApplyCall(w.disk));
    MayApplyNames(w, env, force);
    var w', r, previous := NormalReachesApply(site, w, env, force);
    SameChoice(env, w'.mem, r, site.stacksAt(env.branch), []);
    BlameFollowsFault(site, env, w', r, previous, [], f);
    var s := ApplyAndWatch(site, env, w', r, previous, []);
    if s.Done? {
      HistoryWrites(s.w, env, s.value, Now(Begin(w), env));
    }
    BlamePasses(w.disk, w'.disk, s.w.disk, After(site, w, Attempt(Options(false, force), env)).disk);
  }

  lemma MayApplyNames(w: World, env: Env, force: bool)
    requires MayApply(w, env, force)
    ensures env.branch != NO_COMMIT && w.tree != NO_COMMIT && !w.disk.Pending()
    ensures !force ==> !w.disk.IsKnownBad(env.branch)
  {
  }

  /** The choice looks at nothing of the result but its changed files. */
  lemma SameChoice(env: Env, mem: State, r: Result, stacks: seq<Stack>, pendingStacks: seq<Name>)
    ensures Chosen(env, mem, r, stacks, pendingStacks)
      == Chosen(env, mem, BLANK.(newCommit := r.newCommit, files := r.files), stacks, pendingStacks)
  {
  }

  lemma BlamePasses(a: State, b: State, c: State, d: State)
    requires a.failed == b.failed && a.lastFailed == b.lastFailed && c.failed == d.failed
        && c.lastFailed == d.lastFailed
    ensures BlamesNoOther(b, c) <==> BlamesNoOther(a, d)
  {
    assert forall x :: a.IsKnownBad(x) == b.IsKnownBad(x);
    assert forall x :: c.IsKnownBad(x) == d.IsKnownBad(x);
  }

  /** The same in a recovery run that applies the superseding or the pending commit. */
  lemma RecoveryFaultDecidesBlame(site: Site, w: World, env: Env, f: nat)
    requires Smooth(env, 0, f) && env.reply(f).Fail? && env.sound(3) && f >= 6
    requires Awake(w.disk, env) && w.disk.lastResult != Degraded
    requires w.disk.Pending() && !w.disk.RevertInProgress() && env.branch != NO_COMMIT && w.tree != NO_COMMIT
    requires env.branch != w.disk.pendingCommit ==> !w.disk.IsKnownBad(env.branch)
    requires env.branch == w.disk.pendingCommit ==>
      w.disk.pendingAttempts < MAX_RECOVERY_ATTEMPTS && !RecoveryExpired(site, w.disk, env.clock(2) + 1)
    requires var pending := if env.branch == w.disk.pendingCommit then w.disk.pendingStacks else [];
      BeforeUp(5, |Chosen(env, AttemptOf(w.disk), BLANK.(newCommit := env.branch), site.stacksAt(env.branch),
          pending).0|, f)
    ensures var s := After(site, w, Attempt(Options(false, false), env)).disk;
      && (env.reply(f).infra ==> BlamesNoOther(w.disk, s))
      && (!env.reply(f).infra && OutcomeLands(env, f, BLANK)
          && OutcomeLands(env, f, BLANK.(oldCommit := env.branch)) ==>
            s.IsKnownBad(env.branch))
      && s.Pending()
  {
    hide ReconcileLocked, ApplyAndWatch, RecordHistory, BlamesNoOther, RecoveryExpired;
    var w', r, previous, pendingStacks := RecoveryReachesApply(site, w, env);
    SameChoice(env, w'.mem, r, site.stacksAt(env.branch), pendingStacks);
    hide Chosen;
    BlameFollowsFault(site, env, w', r, previous, pendingStacks, f);
    var s := ApplyAndWatch(site, env, w', r, previous, pendingStacks);
    if s.Done? {
      HistoryWrites(s.w, env, s.value, Now(Begin(w), env));
    }
    BlamePasses(w.disk, w'.disk, s.w.disk, After(site, w, Attempt(Options(false, false), env)).disk);
  }

  /** Docker, worktree and running projects were left alone; at most the record was written. */
  predicate OnlySaves(w: World, w': World) {
    && w'.tree == w.tree && w'.running == w.running && w'.dirty == w.dirty
    && w.log <= w'.log && forall i :: |w.log| <= i < |w'.log| ==> w'.log[i].Saved?
  }

  lemma SaveIsOnlySaves(w: World, env: Env, next: State)
    requires next.lastHealthy == w.disk.lastHealthy
    ensures OnlySaves(w, Save(w, env, next).w)
  {
  }

  lemma HistoryIsOnlySaves(w: World, env: Env, r: Result, runStart: Instant)
    ensures OnlySaves(w, RecordHistory(w, env, r, runStart).w)
  {
    hide Save, LastN, Extend;
    var s := Ask(w, env);
    var d := Deployment(s.w.disk.lastAttemptAt, r.newCommit, s.w.disk.lastResult, r.rolledBackTo, 0);
    SaveIsOnlySaves(s.w, env, s.w.disk.Record(d));
  }

  lemma OutcomeIsOnlySaves(w: World, env: Env, verdict: Verdict, commit: Commit)
    requires w.mem.lastHealthy == w.disk.lastHealthy
    ensures OnlySaves(w, RecordOutcome(w, env, verdict, commit).w)
  {
    hide Save;
    SaveIsOnlySaves(w, env, OutcomeOf(w.mem, verdict, commit, Now(w, env)));
  }

  /** The run's world once it has loaded the record. */
  function Opened(w: World, env: Env): World {
    Ask(Begin(w), env).w.(mem := w.disk, loaded := w.disk)
  }

  /** A run with nothing pending only saves when its normal path does. */
  lemma RunOnlySaves(site: Site, w: World, env: Env, opts: Options)
    requires !w.disk.Pending() && OnlySaves(w, RunNormal(site, env, opts, Opened(w, env)).w)
    ensures OnlySaves(w, After(site, w, Attempt(opts, env)))
  {
    hide RunNormal, RecordHistory;
    var s := ReconcileLocked(site, env, opts, Begin(w));
    if s.Done? {
      HistoryIsOnlySaves(s.w, env, s.value, Now(Begin(w), env));
    }
  }

  lemma RefusalOnlySaves(site: Site, w: World, env: Env, opts: Options)
    requires w.mem == w.disk
    requires (w.disk.IsKnownBad(env.branch) && !opts.force) || (env.windowClosed && w.tree != env.branch)
    ensures OnlySaves(w, RunNormal(site, env, opts, w).w)
  {
    hide RecordOutcome, Gate, AdvanceCheckout;
    var w1 := Fetch(w, env).w;
    OutcomeIsOnlySaves(w1, env, FailedGit, NO_COMMIT);
    OutcomeIsOnlySaves(w1, env, SkippedKnownBad, env.branch);
  }

  /** A known-bad branch head is refused: an unforced run with nothing pending neither checks it out nor touches Docker,
      whatever its calls answer. */
  lemma KnownBadIsRefused(site: Site, w: World, env: Env, dryRun: bool)
    requires !w.disk.Pending() && w.disk.IsKnownBad(env.branch)
    ensures OnlySaves(w, After(site, w, Attempt(Options(dryRun, false), env)))
  {
    hide RunNormal, After;
    RefusalOnlySaves(site, Opened(w, env), env, Options(dryRun, false));
    assert OnlySaves(w, RunNormal(site, env, Options(dryRun, false), Opened(w, env)).w);
    RunOnlySaves(site, w, env, Options(dryRun, false));
  }

  /** So the next unforced run at that branch head is refused after the commit's own fault; after infrastructure's the
      head is as little known-bad as it was. */
  lemma NextRunFollowsBlame(site: Site, w: World, env: Env, f: nat, next: Env, dryRun: bool)
    requires MayApply(w, env, false) && env.sound(3) && Smooth(env, 0, f) && env.reply(f).Fail?
    requires BeforeUp(ApplyCall(w.disk), ChoiceSize(site, w, env), f) && next.branch == env.branch
    ensures var w' := After(site, w, Attempt(Options(false, false), env));
      && (!env.reply(f).infra && OutcomeLands(env, f, BLANK.(oldCommit := w.tree)) ==>
            OnlySaves(w', After(site, w', Attempt(Options(dryRun, false), next))))
      && (env.reply(f).infra ==> !w'.disk.Pending() && !w'.disk.IsKnownBad(next.branch))
  {
    hide After, MayApply, ChoiceSize;
    MayApplyNames(w, env, false);
    FaultDecidesBlame(site, w, env, false, f);
    var w' := After(site, w, Attempt(Options(false, false), env));
    if w'.disk.IsKnownBad(env.branch) {
      KnownBadIsRefused(site, w', next, dryRun);
    }
  }

  /*** Runs that leave everything alone ***/

  /** A paused run leaves everything as it is, whatever its options, the record and its other calls. */
  lemma PausedRunIsStill(site: Site, w: World, env: Env, opts: Options)
    requires env.reply(0).Ok? && w.disk.Paused(env.clock(1) + 1)
    ensures var w' := After(site, w, Attempt(opts, env)); LeftAlone(w, w') && w'.dirty == w.dirty
  {
    hide RecoverFromCrash, RunNormal;
  }

  /** Outside the deploy window a run on a moved branch leaves Docker and the worktree alone. */
  lemma ClosedWindowHolds(site: Site, w: World, env: Env, opts: Options)
    requires !w.disk.Pending() && env.windowClosed && w.tree != env.branch
    ensures OnlySaves(w, After(site, w, Attempt(opts, env)))
  {
    hide RunNormal, After;
    RefusalOnlySaves(site, Opened(w, env), env, opts);
    RunOnlySaves(site, w, env, opts);
  }

  /** It leaves the record alone too, unless it has a failed fetch or a refused commit to record. */
  lemma ClosedWindowIsStill(site: Site, w: World, env: Env, opts: Options)
    requires !w.disk.Pending() && env.windowClosed && w.tree != env.branch
    requires env.reply(0).Ok? && !Unfetched(w.tree, env)
    requires (w.disk.lastResult != Degraded && !w.disk.IsKnownBad(env.branch)) || opts.force
    ensures LeftAlone(w, After(site, w, Attempt(opts, env)))
  {
    hide RecordHistory, Gate, AdvanceCheckout, RecordOutcome;
    var s := ReconcileLocked(site, env, opts, Begin(w));
    if s.Done? {
      SkipsAreNotRecorded(s.w, env, s.value, Now(Begin(w), env));
    }
  }

  /** A result that neither applied, reverted, degraded nor failed goes unrecorded. */
  lemma SkipsAreNotRecorded(w: World, env: Env, r: Result, runStart: Instant)
    requires !r.applied && !r.reverted && !r.degraded && !r.failed
    ensures RecordHistory(w, env, r, runStart).w == w
  {
  }

  lemma IrrelevantIsQuiet(site: Site, w: World, env: Env, opts: Options)
    requires w.mem == w.disk && w.tree != env.branch && w.disk.lastHealthy != NO_COMMIT && !env.relevant
    ensures Quiet(w, RunNormal(site, env, opts, w).w)
  {
    hide RecordOutcome, Gate, AdvanceCheckout;
    var w1 := Fetch(w, env).w;
    RecordIsQuiet(w1, env, FailedGit, NO_COMMIT);
    RecordIsQuiet(w1, env, SkippedKnownBad, env.branch);
    AdvanceIsQuiet(w1, env, BLANK.(changed := true, oldCommit := w.tree, newCommit := env.branch, files := env.diff,
                                   skipped := true));
  }

  /** A change that is irrelevant once something is deployed is passed over: no Pull, Up or Down, whatever the calls
      answer. */
  lemma IrrelevantIsPassedOver(site: Site, w: World, env: Env, opts: Options)
    requires !w.disk.Pending() && w.tree != env.branch && w.disk.lastHealthy != NO_COMMIT && !env.relevant
    ensures Quiet(w, After(site, w, Attempt(opts, env)))
  {
    hide RunNormal, RecordHistory;
    IrrelevantIsQuiet(site, Opened(w, env), env, opts);
    var s := ReconcileLocked(site, env, opts, Begin(w));
    if s.Done? {
      HistoryIsOnlySaves(s.w, env, s.value, Now(Begin(w), env));
    }
  }

  /*** Starting over ***/

  /** Nothing was logged, or first of all a save of this record. */
  predicate FirstSaves(w: World, w': World, s: State) {
    w'.log == w.log || (|w.log| < |w'.log| && w'.log[|w.log|].Saved? && w'.log[|w.log|].after == s)
  }

  /** A forced run on a pending record gives up on nothing before it has counted itself as the first attempt, from
      now, as long as the fetch does not take up the whole budget: that save comes before anything else it logs. */
  lemma ForcedRecoveryStartsOver(site: Site, w: World, env: Env)
    requires w.disk.Pending() && env.reply(0).Ok? && Awake(w.disk, env)
    requires env.clock(2) <= env.clock(1) + 3 * (site.watchSeconds + 900)
    ensures FirstSaves(w, ReconcileLocked(site, env, Options(false, true), Begin(w)).w,
                       w.disk.(pendingAttempts := 1, pendingSince := env.clock(1) + 1))
  {
    hide RecoverFromCrash, RunNormal;
    RestartStartsOver(site, Opened(w, env), env);
  }

  lemma RestartStartsOver(site: Site, w: World, env: Env)
    requires w.mem == w.disk && w.disk.Pending() && w.tick == 1
    requires env.clock(2) <= env.clock(1) + 3 * (site.watchSeconds + 900)
    ensures FirstSaves(w, RecoverFromCrash(site, env, Options(false, true), w).w,
                       w.disk.(pendingAttempts := 1, pendingSince := env.clock(1) + 1))
  {
    hide Resume, Degrade, FirstSaves;
    var w2 := w.(mem := w.disk.(pendingAttempts := 0, pendingSince := env.clock(1) + 1));
    var s := if w2.mem.RevertInProgress() then Done(w2, NO_COMMIT)
             else SupersedingCommit(w2, env, true, w.disk.pendingCommit);
    SameStart(w, s.w, s.w);
    if s.Done? {
      ResumeStartsWithCount(site, s.w, env, w.disk.pendingCommit, s.value);
      SameStart(w, s.w, Resume(site, env, s.w, w.disk.pendingCommit, s.value).w);
    }
  }

  lemma SameStart(w: World, v: World, w': World)
    requires v.log == w.log
    ensures forall s :: FirstSaves(v, w', s) <==> FirstSaves(w, w', s)
    ensures forall s :: FirstSaves(w, v, s)
  {
  }

  lemma ResumeStartsWithCount(site: Site, w: World, env: Env, commit: Commit, superseding: Commit)
    requires OneTarget(w)
    ensures FirstSaves(w, Resume(site, env, w, commit, superseding).w, AttemptOf(w.mem))
  {
    hide Resumed;
    var s1 := Discover(site, env, w);
    if s1.Crashed? || s1.value.0.Fault? { return; }
    var s2 := if s1.w.mem.RevertInProgress() then Done(s1.w, (NoFault, false)) else Judge(s1.w, env);
    if s2.Crashed? || s2.value.0.Fault? { return; }
    var s3 := SaveNext(s2.w, env, AttemptOf(s2.w.mem));
    if s3.Done? && s3.value {
      ResumedGrows(site, env, s3.w, commit, superseding, s1.value.1, s2.value.1);
    }
  }

  /** A superseding commit starts an episode of its own: when its first Up is reached, the record holds it with no
      attempt counted and the clock of the save that announced it. */
  lemma SupersedingStartsAfresh(site: Site, w: World, env: Env)
    requires Supersedes(w.disk, env.branch, false) && site.stacksAt(env.branch) != []
    requires w.disk.lastResult != Degraded && Awake(w.disk, env) && w.tree != NO_COMMIT && env.sound(3)
    requires var at := FirstUp(5, |site.stacksAt(env.branch)|); Smooth(env, 0, at) && env.reply(at) == Crash
    ensures var s := After(site, w, Attempt(Options(false, false), env)).disk;
      && s.pendingCommit == env.branch && s.pendingAttempts == 0
      && s.pendingSince == env.clock(FirstUp(5, |site.stacksAt(env.branch)|) - 1) + 1
  {
    hide After, ReconcileLocked, ApplyAndWatch, UpAndWatch;
    var w', r, previous, none := RecoveryReachesApply(site, w, env);
    ResumedChoice(env, w'.mem, r, site.stacksAt(env.branch), none);
    hide Chosen;
    var w1, changed := ApplyReachesUp(site, env, w', r, previous, none);
    CrashesInFirstUp(site, env, w1, r, site.stacksAt(env.branch), changed,
        Vanished(previous, site.stacksAt(env.branch)));
    CrashedRun(site, w, env, Options(false, false));
  }

  lemma CrashesInFirstUp(site: Site, env: Env, w: World, r: Result, stacks: seq<Stack>, changed: seq<Stack>,
      vanished: seq<Stack>)
    requires changed != [] && env.reply(w.tick) == Crash
    ensures var s := UpAndWatch(site, env, w, r, stacks, changed, vanished); s.Crashed? && s.w.disk == w.disk
  {
    assert Names(changed) != [];
  }

  /*** The choice ***/

  /** No stack is chosen without need: each is one that must come up, judged by itself, or a name that the pending
      record holds and discovery no longer finds. */
  lemma ChoiceIsNeeded(env: Env, mem: State, r: Result, stacks: seq<Stack>, pendingStacks: seq<Name>)
    ensures forall n :: n in Names(Chosen(env, mem, r, stacks, pendingStacks).0) ==>
      || (n, Required) in NeedsOf(env, mem, r, stacks, pendingStacks)
      || (n in pendingStacks && n !in Names(stacks))
  {
    var changed := Chosen(env, mem, r, stacks, pendingStacks).0;
    WeighedMeans(env, stacks);
    forall n | n in Names(changed)
      ensures (n, Required) in NeedsOf(env, mem, r, stacks, pendingStacks)
          || (n in pendingStacks && n !in Names(stacks))
    {
      var i :| 0 <= i < |changed| && changed[i].project == n;
      var c := changed[i];
      if mem.lastHealthy == NO_COMMIT || r.files != [] {
        assert c in changed;
        assert c in stacks && NeedOf(env, mem, r, pendingStacks, c) == Required;
      } else if pendingStacks == [] {
        assert c in stacks && NeedOf(env, mem, r, pendingStacks, c) == Required;
      } else {
        assert Names(changed)[i] == pendingStacks[i];
        if n in Names(stacks) {
          var j :| 0 <= j < |stacks| && stacks[j].project == n;
          assert stacks[j] in stacks && NeedOf(env, mem, r, pendingStacks, stacks[j]) == Required;
        }
      }
    }
  }

  /** So a run with nothing pending neither pulls a stack nor brings one up from the new commit unless that stack
      needs it: on a first deploy every stack does, and with a change those that it reaches. */
  lemma UnchangedIsLeftAlone(site: Site, w: World, env: Env, force: bool, i: nat)
    requires MayApply(w, env, force) && env.sound(3) && Smooth(env, 0, ApplyCall(w.disk))
    requires w.disk.lastHealthy != NO_COMMIT && w.tree != env.branch && env.diff != []
    requires |w.log| <= i < |ReconcileLocked(site, env, Options(false, force), Begin(w)).w.log|
    ensures var e := ReconcileLocked(site, env, Options(false, force), Begin(w)).w.log[i];
      (e.Pulled? || (e.Upped? && e.tree != e.durable.lastHealthy)) ==>
        exists s :: s in site.stacksAt(env.branch) && s.project == e.name && env.weigh(s) == Touched
  {
    hide ReconcileLocked, ApplyAndWatch, MayApply;
    var w', r, previous := NormalReachesApply(site, w, env, force);
    ApplyAdds(site, env, w', r, previous, []);
    ChoiceIsNeeded(env, w'.mem, r, site.stacksAt(env.branch), []);
    hide Chosen;
    var e := ReconcileLocked(site, env, Options(false, force), Begin(w)).w.log[i];
    if e.Pulled? || (e.Upped? && e.tree != e.durable.lastHealthy) {
      assert (e.name, Required) in NeedsOf(env, w'.mem, r, site.stacksAt(env.branch), []);
      var s :| s in site.stacksAt(env.branch) && (e.name, Required) == (s.project, NeedOf(env, w'.mem, r, [], s));
    }
  }
}
