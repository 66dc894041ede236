/** With a well environment and a branch that stands still, two unforced runs settle every state. */
module Convergence {
  import opened Records
  import opened Stacks
  import opened Protocol

  /** From this call on, every call and save succeeds. */
  ghost predicate AnswersFrom(env: Env, from: nat) {
    forall t :: from <= t ==> env.reply(t) == Ok && !env.cancels(t)
  }

  ghost predicate Answers(env: Env) {
    AnswersFrom(env, 0)
  }

  /** And every health verdict is good. */
  ghost predicate WellFrom(env: Env, from: nat) {
    AnswersFrom(env, from) && forall t :: from <= t ==> env.sound(t)
  }

  /** Every call and save succeeds, every health verdict is good and the window is open. */
  ghost predicate Well(env: Env) {
    && Answers(env)
    && (forall t :: env.sound(t))
    && !env.windowClosed
    && env.branch != NO_COMMIT
  }

  /** A run in this environment, on this record, is not held up by a pause: it looks after its first call, the load. */
  predicate Awake(s: State, env: Env) {
    !s.Paused(env.clock(1) + 1)
  }

  /** The same record and worktree, in a run not being cancelled. */
  predicate Same(w: World, w': World) {
    w'.disk == w.disk && w'.mem == w.mem && w'.tree == w.tree && w'.cancelled == w.cancelled && w'.tick >= w.tick
  }

  lemma {:induction false} LoadAllSucceeds(w: World, env: Env, names: seq<Name>)
    requires AnswersFrom(env, w.tick)
    ensures var s := LoadAll(w, env, names); s.Done? && s.value.NoFault? && Same(w, s.w)
    decreases |names|
  {
    if names != [] {
      LoadAllSucceeds(Ask(Ask(w, env).w, env).w, env, names[1..]);
    }
  }

  lemma {:induction false} PullAllSucceeds(w: World, env: Env, names: seq<Name>)
    requires AnswersFrom(env, w.tick)
    ensures var s := PullAll(w, env, names); s.Done? && s.value.NoFault? && Same(w, s.w)
    decreases |names|
  {
    if names != [] {
      PullAllSucceeds(Pull(w, env, names[0]).w, env, names[1..]);
    }
  }

  lemma {:induction false} UpAllSucceeds(w: World, env: Env, names: seq<Name>)
    requires AnswersFrom(env, w.tick)
    ensures var s := UpAll(w, env, names); s.Done? && s.value.NoFault? && Same(w, s.w)
    decreases |names|
  {
    if names != [] {
      UpAllSucceeds(Up(w, env, names[0]).w, env, names[1..]);
    }
  }

  lemma {:induction false} TearDownSucceeds(w: World, env: Env, names: seq<Name>)
    requires AnswersFrom(env, w.tick)
    ensures var s := TearDown(w, env, names); s.Done? && s.value.NoFault? && Same(w, s.w)
    decreases |names|
  {
    if names != [] {
      TearDownSucceeds(Stopped(Tick(w, env), names[0], true), env, names[1..]);
    }
  }

  /** Nothing pending: given up, or back at the rollback target. */
  predicate Settled(s: Step<Result>, target: Commit) {
    && s.Done?
    && !s.w.disk.Pending()
    && (s.w.disk.lastResult == Degraded || (s.w.tree == s.w.disk.ExpectedCheckout() == target != NO_COMMIT))
  }

  lemma DoRevertSettles(site: Site, env: Env, w: World, stacks: seq<Stack>, failedCommit: Commit)
    requires WellFrom(env, w.tick)
    ensures Settled(DoRevert(site, env, w, stacks, failedCommit), w.mem.lastHealthy)
    ensures w.mem.lastHealthy != NO_COMMIT ==>
        DoRevert(site, env, w, stacks, failedCommit).w.disk.lastResult == Reverted
    ensures SamePause(w.mem, DoRevert(site, env, w, stacks, failedCommit).w.disk)
  {
    hide LoadAll, UpAll, TearDown, LastN, Without, RevertFailed, RevertInterrupted;
    var target := w.mem.lastHealthy;
    if target == NO_COMMIT { return; }
    var w1 := Checkout(w, env, target).w;
    var s2 := Discover(site, env, w1.(mem := w1.mem.(lastCheckout := target)));
    var gone := Names(Vanished(stacks, s2.value.1));
    TearDownSucceeds(s2.w, env, gone);
    var w3 := TearDown(s2.w, env, gone).w;
    RestoreSettles(env, w3, Intersect(s2.value.1, stacks), failedCommit, target);
    hide RestoreStacks, Vanished, Intersect;
  }

  lemma RestoreSettles(env: Env, w: World, stacks: seq<Stack>, failedCommit: Commit, target: Commit)
    requires WellFrom(env, w.tick) && w.tree == target == w.mem.lastHealthy != NO_COMMIT
    ensures Settled(RestoreStacks(w, env, stacks, failedCommit, target), target)
    ensures RestoreStacks(w, env, stacks, failedCommit, target).w.disk.lastResult == Reverted
    ensures SamePause(w.mem, RestoreStacks(w, env, stacks, failedCommit, target).w.disk)
  {
    hide LoadAll, UpAll, LastN, Without, RevertFailed, RevertInterrupted;
    var names := Names(stacks);
    LoadAllSucceeds(w, env, names);
    UpAllSucceeds(LoadAll(w, env, names).w, env, names);
  }

  predicate SamePause(a: State, b: State) {
    a.pausedAt == b.pausedAt && a.pausedUntil == b.pausedUntil
  }

  /** The commit is deployed: in the worktree, the rollback target, nothing pending and nothing held against it. */
  predicate Promoted(s: Step<Result>, commit: Commit) {
    s.Done? && s.w.tree == commit == s.w.disk.lastHealthy == s.w.disk.lastCheckout && !s.w.disk.Pending()
    && s.w.disk.lastResult == Success && !s.w.disk.IsKnownBad(commit)
  }

  lemma SettlePromotes(site: Site, env: Env, w: World, r: Result, stacks: seq<Stack>, vanished: seq<Stack>)
    requires Well(env) && w.tree == r.newCommit
    ensures Promoted(TearDownAndPromote(site, env, w, r, stacks, vanished), r.newCommit)
    ensures Promoted(ApplyNothing(site, env, w, r, stacks, vanished, false), r.newCommit)
    ensures SamePause(w.mem, TearDownAndPromote(site, env, w, r, stacks, vanished).w.disk)
    ensures SamePause(w.mem, ApplyNothing(site, env, w, r, stacks, vanished, false).w.disk)
  {
    hide TearDown;
    TearDownSucceeds(w, env, Names(vanished));
  }

  lemma ApplyChangedPromotes(site: Site, env: Env, w: World, r: Result, stacks: seq<Stack>, changed: seq<Stack>,
      vanished: seq<Stack>)
    requires Well(env) && w.tree == r.newCommit
    ensures Promoted(ApplyChanged(site, env, w, r, stacks, changed, vanished), r.newCommit)
    ensures SamePause(w.mem, ApplyChanged(site, env, w, r, stacks, changed, vanished).w.disk)
  {
    hide LoadAll, PullAll, UpAll, TearDownAndPromote, Promoted, FailAndRevert;
    var names := Names(changed);
    LoadAllSucceeds(w, env, names);
    var w1 := LoadAll(w, env, names).w;
    PullAllSucceeds(w1, env, names);
    var w2 := PullAll(w1, env, names).w;
    var w3 := SaveNext(w2, env, PendingOf(w2.mem, r.newCommit, names, Now(w2, env))).w;
    UpAllSucceeds(w3, env, names);
    var w4 := UpAll(w3, env, names).w;
    SettlePromotes(site, env, Watch(w4, env, names).w, r.(applied := true), stacks, vanished);
  }

  /** The commit is in the worktree and the record is as it was. */
  predicate Unrecorded(w: World, s: Step<Result>, commit: Commit) {
    s.Done? && s.w.tree == commit && s.w.disk == w.disk
  }

  /** Without a failure an apply promotes, unless nothing was touched and a stack could not be weighed. */
  lemma ApplyPromotes(site: Site, env: Env, w: World, r: Result, previous: seq<Stack>, pendingStacks: seq<Name>)
    requires Well(env) && r.newCommit != NO_COMMIT
    ensures var s := ApplyAndWatch(site, env, w, r, previous, pendingStacks);
      if Chosen(env, w.mem, r, site.stacksAt(r.newCommit), pendingStacks) == ([], true)
          then Unrecorded(w, s, r.newCommit)
      else Promoted(s, r.newCommit) && SamePause(w.mem, s.w.disk)
  {
    hide ApplyChanged, Promoted, Weighed, Chosen, TearDown, NeedsOf, Vanished, AbortBeforeUp, AbortApply, Promote,
        Incomplete;
    var s2 := Discover(site, env, Checkout(w, env, r.newCommit).w);
    var stacks := s2.value.1;
    var (changed, unsure) := Chosen(env, s2.w.mem, r, stacks, pendingStacks);
    var w3 := s2.w.(seen := s2.w.seen.(needs := NeedsOf(env, s2.w.mem, r, stacks, pendingStacks),
        former := NameSet(previous)));
    var vanished := Vanished(previous, stacks);
    ApplyChangedPromotes(site, env, w3, r, stacks, changed, vanished);
    SettlePromotes(site, env, w3, r, stacks, vanished);
    TearDownSucceeds(w3, env, Names(vanished));
  }

  /** The worktree is at the branch with nothing pending, or the branch head is refused as known-bad, or the system has
      asked for help. */
  predicate Converged(w: World, branch: Commit) {
    || (w.tree == branch && !w.disk.Pending())
    || (w.disk.IsKnownBad(branch) && !w.disk.Pending())
    || w.disk.lastResult == Degraded
  }

  lemma GateArrives(site: Site, env: Env, opts: Options, w: World, r: Result)
    requires Well(env) && !opts.dryRun && r.newCommit != NO_COMMIT && w.mem == w.disk && !w.mem.Pending()
    ensures var s := Gate(site, env, opts, w, r);
      s.Done? && s.w.tree == r.newCommit && !s.w.disk.Pending() && SamePause(w.disk, s.w.disk)
  {
    hide ApplyAndWatch, Chosen;
    var s1 := Discover(site, env, w);
    var w2 := Judge(s1.w, env).w;
    var w3 := ClearBlocks(w2, env).w;
    ApplyPromotes(site, env, w3, r, Deployed(w3.mem.lastHealthyStacks, s1.value.1), []);
  }

  lemma NormalConverges(site: Site, env: Env, opts: Options, w: World)
    requires Well(env) && !opts.dryRun && !opts.force && !w.mem.Pending() && w.mem == w.disk && w.tree != NO_COMMIT
    ensures var s := RunNormal(site, env, opts, w);
      s.Done? && Converged(s.w, env.branch) && s.w.tree != NO_COMMIT && SamePause(w.disk, s.w.disk)
  {
    hide Gate;
    var w1 := Fetch(w, env).w;
    GateArrives(site, env, opts, w1,
      BLANK.(changed := true, oldCommit := w.tree, newCommit := env.branch, files := if w.tree != env.branch
          then env.diff else []));
  }

  /** What recovery leaves: nothing pending, and a worktree unless it gave up. */
  predicate Recovered(s: Step<Result>, before: State) {
    && s.Done?
    && !s.w.disk.Pending()
    && (s.w.tree != NO_COMMIT || s.w.disk.lastResult == Degraded)
    && SamePause(before, s.w.disk)
  }

  lemma ResumedSettles(site: Site, env: Env, w: World, superseding: Commit, found: seq<Stack>, healthy: bool)
    requires Well(env) && (healthy ==> w.mem.pendingCommit != NO_COMMIT)
    ensures Recovered(Resumed(site, env, w, w.mem.pendingCommit, superseding, found, healthy), w.mem)
  {
    hide ApplyAndWatch, DoRevert;
    var commit := w.mem.pendingCommit;
    var previous := Deployed(w.mem.lastHealthyStacks, found);
    if !healthy {
      DoRevertSettles(site, env, w, Restrict(found, w.mem.pendingStacks), commit);
    } else if superseding != NO_COMMIT {
      ApplyPromotes(site, env, w, BLANK.(changed := true, newCommit := superseding, oldCommit := commit), previous, []);
    } else {
      ApplyPromotes(site, env, w, BLANK.(newCommit := commit, oldCommit := w.mem.lastHealthy), previous,
          w.mem.pendingStacks);
    }
  }

  lemma ResumeSettles(site: Site, env: Env, w: World, superseding: Commit)
    requires Well(env) && w.mem.Pending()
    ensures Recovered(Resume(site, env, w, w.mem.pendingCommit, superseding), w.mem)
  {
    hide Resumed;
    var s1 := Discover(site, env, w);
    var s2 := if s1.w.mem.RevertInProgress() then Done(s1.w, (NoFault, false)) else Judge(s1.w, env);
    var w3 := SaveNext(s2.w, env, AttemptOf(s2.w.mem)).w;
    ResumedSettles(site, env, w3, superseding, s1.value.1, s2.value.1);
  }

  lemma RecoverySettles(site: Site, env: Env, opts: Options, w: World)
    requires Well(env) && !opts.dryRun && !opts.force && w.mem.Pending()
    ensures Recovered(RecoverFromCrash(site, env, opts, w), w.mem)
  {
    hide Resume, LastN, Without;
    var commit := w.mem.pendingCommit;
    var s := if w.mem.RevertInProgress() then Done(w, NO_COMMIT) else SupersedingCommit(w, env, false, commit);
    ResumeSettles(site, env, s.w, s.value);
  }

  /** Recording the run in the history changes nothing else. */
  lemma HistoryOnly(w: World, env: Env, r: Result, runStart: Instant)
    requires Answers(env)
    ensures var s := RecordHistory(w, env, r, runStart);
      s.Done? && s.w.tree == w.tree && s.w.disk == w.disk.(history := s.w.disk.history)
  {
    hide LastN, Extend;
  }

  /** One unforced run in a well environment: it ends a pending episode, and settles a state with nothing pending. */
  lemma WellRun(site: Site, w: World, env: Env)
    requires Well(env) && Awake(w.disk, env) && w.tree != NO_COMMIT
    ensures var w' := After(site, w, Attempt(Options(false, false), env));
      && (!w'.disk.Pending() || w'.disk.lastResult == Degraded)
      && (!w.disk.Pending() ==> Converged(w', env.branch))
      && (w'.disk.lastResult == Degraded || w'.tree != NO_COMMIT)
      && SamePause(w.disk, w'.disk)
  {
    hide RunNormal, RecoverFromCrash, RecordHistory;
    var opts := Options(false, false);
    var w0 := Begin(w);
    var w1 := Ask(w0, env).w;
    var w2 := w1.(mem := w1.disk, loaded := w1.disk);
    if w2.mem.lastResult != Degraded {
      if w2.mem.Pending() {
        RecoverySettles(site, env, opts, w2);
      } else {
        NormalConverges(site, env, opts, w2);
      }
    }
    var s := ReconcileLocked(site, env, opts, w0);
    HistoryOnly(s.w, env, s.value, Now(w0, env));
  }

  /** A run on DEGRADED changes nothing that matters. */
  lemma DegradedWellRun(site: Site, w: World, env: Env)
    requires Answers(env) && w.disk.lastResult == Degraded
    ensures After(site, w, Attempt(Options(false, false), env)).disk.lastResult == Degraded
    ensures SamePause(w.disk, After(site, w, Attempt(Options(false, false), env)).disk)
  {
    hide RunNormal, RecoverFromCrash, RecordHistory;
    var opts := Options(false, false);
    var w0 := Begin(w);
    var s := ReconcileLocked(site, env, opts, w0);
    HistoryOnly(s.w, env, s.value, Now(w0, env));
  }

  /** Well unforced runs with the branch standing still, none of them held up by the pause. */
  ghost predicate AllWell(w: World, envs: seq<Env>, branch: Commit) {
    forall i :: 0 <= i < |envs| ==> Well(envs[i]) && envs[i].branch == branch && Awake(w.disk, envs[i])
  }

  function Runs(envs: seq<Env>): seq<Turn> {
    seq(|envs|, i requires 0 <= i < |envs| => Attempt(Options(false, false), envs[i]))
  }

  lemma RunsStep(site: Site, w: World, envs: seq<Env>)
    requires envs != []
    ensures AfterAll(site, w, Runs(envs)) == AfterAll(site, After(site, w, Attempt(Options(false, false), envs[0])),
        Runs(envs[1..]))
  {
    hide After;
    assert Runs(envs)[1..] == Runs(envs[1..]);
  }

  /** Once nothing is pending, or the system is DEGRADED, every further well run converges or stays converged. */
  lemma {:induction false} RunsStayConverged(site: Site, w: World, envs: seq<Env>, branch: Commit)
    requires AllWell(w, envs, branch) && (w.disk.lastResult == Degraded || (!w.disk.Pending() && w.tree != NO_COMMIT))
    requires envs == [] ==> Converged(w, branch)
    ensures Converged(AfterAll(site, w, Runs(envs)), branch)
    decreases |envs|
  {
    hide After;
    if envs != [] {
      var w1 := After(site, w, Attempt(Options(false, false), envs[0]));
      if w.disk.lastResult == Degraded {
        DegradedWellRun(site, w, envs[0]);
      } else {
        WellRun(site, w, envs[0]);
      }
      RunsStep(site, w, envs);
      hide Well;
      RunsStayConverged(site, w1, envs[1..], branch);
    }
  }

  /** Bounded convergence: from any state, two or more unforced well runs end converged. */
  lemma TwoRunsConverge(site: Site, w: World, envs: seq<Env>, branch: Commit)
    requires |envs| >= 2 && AllWell(w, envs, branch) && w.tree != NO_COMMIT
    ensures Converged(AfterAll(site, w, Runs(envs)), branch)
  {
    hide After;
    WellRun(site, w, envs[0]);
    RunsStep(site, w, envs);
    hide Well;
    RunsStayConverged(site, After(site, w, Attempt(Options(false, false), envs[0])), envs[1..], branch);
  }
}
