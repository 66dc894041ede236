/** What a failing call decides once something may be running: in the Ups and the watch of an apply, and in a revert. */
module Failures {
  import opened Records
  import opened Stacks
  import opened Protocol
  import opened Reverts
  import opened Convergence
  import opened Limits
  import opened Outcomes

  /*** Runs of calls of which at most one fails ***/

  /** Nothing was written, and the call after these is this one. */
  predicate Reaches(w: World, w': World, tick: nat, cancelled: bool) {
    Unwritten(w, w') && w'.tree == w.tree && w'.tick == tick && w'.cancelled == cancelled
  }

  lemma {:induction false} UpTakes(w: World, env: Env, names: seq<Name>)
    requires Smooth(env, w.tick, w.tick + |names|)
    ensures var s := UpAll(w, env, names);
      s.Done? && s.value == NoFault && Reaches(w, s.w, w.tick + |names|, w.cancelled)
    decreases |names|
  {
    if names != [] {
      UpTakes(Up(w, env, names[0]).w, env, names[1..]);
    }
  }

  lemma {:induction false} UpFails(w: World, env: Env, names: seq<Name>, f: nat)
    requires w.tick <= f < w.tick + |names| && Smooth(env, w.tick, f) && env.reply(f).Fail?
    ensures var s := UpAll(w, env, names);
      s.Done? && s.value == Fault(env.reply(f).infra) && Reaches(w, s.w, f + 1, w.cancelled || env.cancels(f))
    decreases |names|
  {
    if f > w.tick {
      UpFails(Up(w, env, names[0]).w, env, names[1..], f);
    }
  }

  lemma {:induction false} TearTakes(w: World, env: Env, names: seq<Name>)
    requires Smooth(env, w.tick, w.tick + |names|)
    ensures var s := TearDown(w, env, names);
      s.Done? && s.value == NoFault && Reaches(w, s.w, w.tick + |names|, w.cancelled)
    decreases |names|
  {
    if names != [] {
      TearTakes(Stopped(Tick(w, env), names[0], true), env, names[1..]);
    }
  }

  /** A teardown goes on after a failure. */
  lemma {:induction false} TearFails(w: World, env: Env, names: seq<Name>, f: nat)
    requires w.tick <= f < w.tick + |names| && Smooth(env, w.tick, f) && env.reply(f).Fail?
    requires Smooth(env, f + 1, w.tick + |names|)
    ensures var s := TearDown(w, env, names);
      && s.Done? && s.value == Fault(env.reply(f).infra)
      && Reaches(w, s.w, w.tick + |names|, w.cancelled || env.cancels(f))
    decreases |names|
  {
    if f > w.tick {
      TearFails(Stopped(Tick(w, env), names[0], true), env, names[1..], f);
    } else {
      TearTakes(Stopped(Tick(w, env), names[0], false), env, names[1..]);
    }
  }

  /** A teardown that is not cut short fails exactly when one of its calls does, and as infrastructure's fault exactly
      when one of them does as that. */
  lemma {:induction false} TearDownJoins(w: World, env: Env, names: seq<Name>)
    requires forall t :: w.tick <= t < w.tick + |names| ==> !env.reply(t).Crash?
    ensures var s := TearDown(w, env, names);
      && s.Done?
      && (s.value.Fault? <==> exists t :: w.tick <= t < w.tick + |names| && env.reply(t).Fail?)
      && (s.value == Fault(true) <==> exists t :: w.tick <= t < w.tick + |names| && env.reply(t) == Fail(true))
    decreases |names|
  {
    if names != [] {
      var w1 := Stopped(Tick(w, env), names[0], env.reply(w.tick).Ok?);
      TearDownJoins(w1, env, names[1..]);
    }
  }

  /*** A revert ***/

  /** The revert is to be taken up again: it is what the record holds as pending, for this commit. */
  predicate Interrupted(s: State, s': State, failed: Commit) {
    && s'.pendingRevert && s'.pendingCommit == failed
    && s'.lastHealthy == s.lastHealthy && s'.lastResult == FailedApply
    && (failed != NO_COMMIT ==> s'.IsKnownBad(failed))
  }

  /** The system asks for help. */
  predicate GaveUp(s: State, s': State, failed: Commit) {
    && !s'.Pending() && s'.lastResult == Degraded
    && s'.lastHealthy == s.lastHealthy
    && (failed != NO_COMMIT ==> s'.IsKnownBad(failed))
  }

  lemma DegradeSays(w: World, env: Env, failed: Commit, target: Commit)
    requires env.reply(w.tick).Ok?
    ensures GaveUp(w.mem, Degrade(w, env, failed, target).w.disk, failed)
  {
    hide LastN, Without;
    if failed != NO_COMMIT {
      MarkStays(NotPending(w.mem).(lastResult := Degraded, lastAttemptAt := Now(w, env)), failed);
    }
  }

  lemma InterruptedSays(w: World, env: Env, failed: Commit, target: Commit, stacks: seq<Stack>)
    requires env.reply(w.tick).Ok?
    ensures var s := RevertInterrupted(w, env, failed, target, stacks).w.disk;
      Interrupted(w.mem, s, failed) && s.pendingStacks == if stacks != [] then Names(stacks) else w.mem.pendingStacks
  {
    hide LastN, Without;
    assert stacks != [] ==> Names(stacks) != [];
  }

  /** Given up on the revert's own failure; taken up again when infrastructure failed or the process is shutting down.
      */
  predicate Decides(s: State, s': State, failed: Commit, again: bool) {
    if again then Interrupted(s, s', failed) else GaveUp(s, s', failed)
  }

  lemma RevertFailedSays(w: World, env: Env, failed: Commit, target: Commit, stacks: seq<Stack>, infra: bool)
    requires env.reply(w.tick).Ok?
    ensures Decides(w.mem, RevertFailed(w, env, failed, target, stacks, infra).w.disk, failed, w.cancelled || infra)
  {
    hide Degrade, RevertInterrupted;
    DegradeSays(w, env, failed, target);
    InterruptedSays(w, env, failed, target, stacks);
  }

  /** How many stacks a revert tears down, and how many it brings back. */
  function Gone(site: Site, target: Commit, stacks: seq<Stack>): nat {
    |Vanished(stacks, site.stacksAt(target))|
  }

  function Back(site: Site, target: Commit, stacks: seq<Stack>): nat {
    |Intersect(site.stacksAt(target), stacks)|
  }

  /** Call f of a revert that starts at this call, tears `gone` stacks down and brings `back` up is its checkout, its
      discovery, a teardown, a load, a check of environment files or an Up. */
  predicate BeforeWatch(start: nat, gone: nat, back: nat, f: nat) {
    start <= f < start + 2 + gone + 3 * back
  }

  /** The save that follows when that call fails: a teardown first tries all the stacks. */
  function FailureSave(start: nat, gone: nat, f: nat): nat {
    if start + 2 <= f < start + 2 + gone then start + 2 + gone else f + 1
  }

  /** Of a revert's calls up to the save, this one alone fails. */
  ghost predicate FailsAt(env: Env, start: nat, gone: nat, back: nat, f: nat) {
    && BeforeWatch(start, gone, back, f)
    && Smooth(env, start, f) && env.reply(f).Fail? && Smooth(env, f + 1, FailureSave(start, gone, f))
    && env.reply(FailureSave(start, gone, f)).Ok?
  }

  lemma RestoreFaultDecides(env: Env, w: World, stacks: seq<Stack>, failed: Commit, target: Commit, f: nat)
    requires w.tick <= f < w.tick + 3 * |stacks| && Smooth(env, w.tick, f) && env.reply(f).Fail? && env.reply(f + 1).Ok?
    requires !w.cancelled
    ensures Decides(w.mem, RestoreStacks(w, env, stacks, failed, target).w.disk, failed, env.cancels(f)
        || env.reply(f).infra)
  {
    hide LoadAll, UpAll, RevertFailed, FinishRevert, Decides;
    var names := Names(stacks);
    if f < w.tick + 2 * |names| {
      LoadFails(w, env, names, f);
      RevertFailedSays(LoadAll(w, env, names).w, env, failed, target, stacks, env.reply(f).infra);
    } else {
      LoadTakes(w, env, names);
      var w1 := LoadAll(w, env, names).w;
      UpFails(w1, env, names, f);
      RevertFailedSays(UpAll(w1, env, names).w, env, failed, target, stacks, env.reply(f).infra);
    }
  }

  /** The one call of a revert that fails before its watch decides how it ends: for good when the fault is the revert's
      own, and to be taken up again when it is infrastructure's or comes with a shutdown. */
  lemma RevertFaultDecides(site: Site, env: Env, w: World, stacks: seq<Stack>, failed: Commit, f: nat)
    requires var target := w.mem.lastHealthy;
      target != NO_COMMIT && FailsAt(env, w.tick, Gone(site, target, stacks), Back(site, target, stacks), f)
    requires !w.cancelled
    ensures Decides(w.mem, DoRevert(site, env, w, stacks, failed).w.disk, failed, env.cancels(f) || env.reply(f).infra)
  {
    hide Degrade, RevertFailed, RestoreStacks, TearDown, Vanished, Intersect, Decides;
    var target := w.mem.lastHealthy;
    var w1 := Checkout(w, env, target).w;
    if f == w.tick {
      RevertFailedSays(w1, env, failed, target, stacks, env.reply(f).infra);
      return;
    }
    var s2 := Discover(site, env, w1.(mem := w1.mem.(lastCheckout := target)));
    DecidesOfCheckout(w.mem, target, failed);
    if f == w.tick + 1 {
      RevertFailedSays(s2.w, env, failed, target, stacks, env.reply(f).infra);
      return;
    }
    var found := site.stacksAt(target);
    var gone := Names(Vanished(stacks, found));
    if f < w.tick + 2 + |gone| {
      TearFails(s2.w, env, gone, f);
      RevertFailedSays(TearDown(s2.w, env, gone).w, env, failed, target, stacks, env.reply(f).infra);
    } else {
      TearTakes(s2.w, env, gone);
      RestoreFaultDecides(env, TearDown(s2.w, env, gone).w, Intersect(found, stacks), failed, target, f);
    }
  }

  /** What a revert decides does not depend on the checkout it has noted. */
  lemma DecidesOfCheckout(s: State, target: Commit, failed: Commit)
    ensures forall s', again :: Decides(s.(lastCheckout := target), s', failed, again) == Decides(s, s', failed, again)
  {
  }

  /** Where a recovery run that takes up a revert starts it: after the load, a discovery and the save that counts it. */
  const REVERT_CALL := 3

  /** So it goes in a run that takes up a revert: the durable record is DEGRADED when the revert's own call fails, and
      holds the revert as still to be done when infrastructure fails or the process is shutting down. */
  lemma ResumedRevertFaultDecides(site: Site, w: World, env: Env, f: nat)
    requires w.disk.RevertInProgress() && w.disk.lastHealthy != NO_COMMIT && w.disk.lastResult != Degraded
    requires Awake(w.disk, env) && Smooth(env, 0, REVERT_CALL)
    requires w.disk.pendingAttempts < MAX_RECOVERY_ATTEMPTS && !RecoveryExpired(site, w.disk, env.clock(1) + 1)
    requires var target, stacks := w.disk.lastHealthy, Restrict(site.stacksAt(w.tree), w.disk.pendingStacks);
      FailsAt(env, REVERT_CALL, Gone(site, target, stacks), Back(site, target, stacks), f)
    ensures var s := After(site, w, Attempt(Options(false, false), env)).disk;
      Decides(w.disk, s, w.disk.pendingCommit, env.cancels(f) || env.reply(f).infra)
  {
    hide ReconcileLocked, DoRevert, RecordHistory, FailsAt, Gone, Back, RecoveryExpired, Restrict, Decides;
    var w', stacks := RecoveryReachesRevert(site, w, env);
    RevertFaultDecides(site, env, w', stacks, w.disk.pendingCommit, f);
    var s := ReconcileLocked(site, env, Options(false, false), Begin(w));
    if s.Done? {
      HistoryWrites(s.w, env, s.value, Now(Begin(w), env));
    }
    SameDecision(w.disk, w'.mem, s.w.disk, After(site, w, Attempt(Options(false, false), env)).disk,
        w.disk.pendingCommit);
  }

  lemma SameDecision(a: State, b: State, c: State, d: State, failed: Commit)
    requires a.lastHealthy == b.lastHealthy && d == c.(history := d.history)
    ensures forall again :: Decides(b, c, failed, again) ==> Decides(a, d, failed, again)
  {
  }

  lemma RecoveryReachesRevert(site: Site, w: World, env: Env) returns (w': World, stacks: seq<Stack>)
    requires w.disk.RevertInProgress() && w.disk.lastResult != Degraded
    requires Awake(w.disk, env) && Smooth(env, 0, REVERT_CALL)
    requires w.disk.pendingAttempts < MAX_RECOVERY_ATTEMPTS && !RecoveryExpired(site, w.disk, env.clock(1) + 1)
    ensures ReconcileLocked(site, env, Options(false, false), Begin(w)).w
      == DoRevert(site, env, w', stacks, w.disk.pendingCommit).w
    ensures w'.mem == w'.disk == AttemptOf(w.disk) && w'.tick == REVERT_CALL && !w'.cancelled
    ensures stacks == Restrict(site.stacksAt(w.tree), w.disk.pendingStacks)
  {
    hide DoRevert, Restrict, RecoveryExpired;
    var commit := w.disk.pendingCommit;
    var w1 := Ask(Begin(w), env).w.(mem := w.disk, loaded := w.disk);
    var s2 := Discover(site, env, w1);
    w' := SaveNext(s2.w, env, AttemptOf(s2.w.mem)).w;
    stacks := Restrict(s2.value.1, w'.mem.pendingStacks);
    assert Resume(site, env, w1, commit, NO_COMMIT) == Resumed(site, env, w', commit, NO_COMMIT, s2.value.1, false);
  }

  /*** An apply ***/

  /** The commit is blamed, and undone: the worktree is back at the rollback target, or the system asks for help when
      there is none. */
  predicate Undone(s: State, w': World, commit: Commit) {
    && w'.disk.IsKnownBad(commit) && !w'.disk.Pending() && w'.disk.lastHealthy == s.lastHealthy
    && if s.lastHealthy == NO_COMMIT then w'.disk.lastResult == Degraded
       else w'.disk.lastResult == Reverted && w'.tree == s.lastHealthy
  }

  lemma FailureIsUndone(site: Site, env: Env, w: World, stacks: seq<Stack>, r: Result)
    requires WellFrom(env, w.tick) && r.newCommit != NO_COMMIT
    ensures Undone(w.mem, FailAndRevert(site, env, w, stacks, r).w, r.newCommit)
  {
    hide DoRevert, LastN, Without;
    var failed := w.mem.MarkFailed(r.newCommit).(lastResult := FailedApply);
    MarkStays(w.mem, r.newCommit);
    var w1 := Save(w.(mem := failed), env, failed).w;
    DoRevertSettles(site, env, w1, stacks, r.newCommit);
    RevertWrites(site, env, w1, stacks, r.newCommit);
  }

  /** The apply is still under way and the record blames nobody for it. */
  predicate StillPending(s: State, s': State, commit: Commit) {
    s'.failed == s.failed && s'.lastFailed == s.lastFailed && s'.pendingCommit == commit
        && s'.lastHealthy == s.lastHealthy
  }

  lemma IncompleteIsPending(w: World, env: Env, r: Result)
    requires w.mem == w.disk
    ensures StillPending(w.disk, Incomplete(w, env, r).w.disk, w.disk.pendingCommit)
  {
  }

  /** What an apply comes to whose Up fails. */
  lemma UpFaultSettles(site: Site, env: Env, w: World, r: Result, stacks: seq<Stack>, changed: seq<Stack>,
                       vanished: seq<Stack>, f: nat)
    requires w.mem == w.disk && w.disk.pendingCommit == r.newCommit != NO_COMMIT && !w.cancelled
    requires w.tick <= f < w.tick + |changed| && Smooth(env, w.tick, f) && env.reply(f).Fail?
    ensures var w' := UpAndWatch(site, env, w, r, stacks, changed, vanished).w;
      && (env.reply(f).infra || env.cancels(f) ==> StillPending(w.disk, w'.disk, r.newCommit))
      && (!env.reply(f).infra && !env.cancels(f) && WellFrom(env, f + 1) ==> Undone(w.disk, w', r.newCommit))
  {
    hide UpAll, Incomplete, FailAndRevert, WatchAndSettle, Undone;
    UpFails(w, env, Names(changed), f);
    var w1 := UpAll(w, env, Names(changed)).w;
    IncompleteIsPending(w1, env, r);
    if WellFrom(env, f + 1) {
      FailureIsUndone(site, env, w1, changed, r);
    }
  }

  /** And one whose watch fails, or finds the stacks unhealthy. */
  lemma WatchSettles(site: Site, env: Env, w: World, r: Result, stacks: seq<Stack>, changed: seq<Stack>,
                     vanished: seq<Stack>)
    requires w.mem == w.disk && w.disk.pendingCommit == r.newCommit != NO_COMMIT && !w.cancelled && changed != []
    requires Smooth(env, w.tick, w.tick + |changed|)
    ensures var w' := UpAndWatch(site, env, w, r, stacks, changed, vanished).w;
      var f := w.tick + |changed|;
      && (env.reply(f).Fail? ==> StillPending(w.disk, w'.disk, r.newCommit))
      && (env.reply(f).Ok? && !env.sound(f) && WellFrom(env, f + 1) ==> Undone(w.disk, w', r.newCommit))
  {
    hide UpAll, Incomplete, FailAndRevert, TearDownAndPromote, Undone;
    UpTakes(w, env, Names(changed));
    var w1 := UpAll(w, env, Names(changed)).w;
    assert Names(changed) != [];
    var w2 := Judge(w1, env).w;
    IncompleteIsPending(w2, env, r.(applied := true));
    if env.reply(w1.tick).Ok? && !env.sound(w1.tick) && WellFrom(env, w1.tick + 1) {
      FailureIsUndone(site, env, w2, changed, r.(applied := true));
    }
  }

  /** The call of a run with nothing pending at which it makes its first Up. */
  function RunsFirstUp(site: Site, w: World, env: Env): nat {
    FirstUp(ApplyCall(w.disk), ChoiceSize(site, w, env))
  }

  /** A run with nothing pending whose Up fails: infrastructure's fault or a shutdown leaves the apply pending and the
      branch head unblamed; the commit's own fault blames it, and it is undone when nothing else goes wrong. */
  lemma UpFaultDecides(site: Site, w: World, env: Env, force: bool, f: nat)
    requires MayApply(w, env, force) && env.sound(3) && Smooth(env, 0, f) && env.reply(f).Fail?
    requires RunsFirstUp(site, w, env) <= f < RunsFirstUp(site, w, env) + ChoiceSize(site, w, env)
    ensures var w' := After(site, w, Attempt(Options(false, force), env));
      && (env.reply(f).infra || env.cancels(f) ==> StillPending(w.disk, w'.disk, env.branch))
      && (!env.reply(f).infra && !env.cancels(f) && WellFrom(env, f + 1) ==> Undone(w.disk, w', env.branch))
  {
    hide ReconcileLocked, UpAndWatch, RecordHistory, MayApply, ChoiceSize, Undone;
    var w1, r, stacks, changed, vanished := RunReachesUp(site, w, env, force);
    UpFaultSettles(site, env, w1, r, stacks, changed, vanished, f);
    RunEndsAs(site, w, env, force, w1.disk, UpAndWatch(site, env, w1, r, stacks, changed, vanished));
  }

  /** A run with nothing pending whose watch fails stays pending and blames nobody; one whose watch finds the stacks
      unhealthy blames the branch head, and it is undone when nothing else goes wrong. */
  lemma WatchDecides(site: Site, w: World, env: Env, force: bool)
    requires MayApply(w, env, force) && env.sound(3) && ChoiceSize(site, w, env) > 0
    requires Smooth(env, 0, RunsFirstUp(site, w, env) + ChoiceSize(site, w, env))
    ensures var w' := After(site, w, Attempt(Options(false, force), env));
      var f := RunsFirstUp(site, w, env) + ChoiceSize(site, w, env);
      && (env.reply(f).Fail? ==> StillPending(w.disk, w'.disk, env.branch))
      && (env.reply(f).Ok? && !env.sound(f) && WellFrom(env, f + 1) ==> Undone(w.disk, w', env.branch))
  {
    hide ReconcileLocked, UpAndWatch, RecordHistory, MayApply, ChoiceSize, Undone;
    var w1, r, stacks, changed, vanished := RunReachesUp(site, w, env, force);
    WatchSettles(site, env, w1, r, stacks, changed, vanished);
    RunEndsAs(site, w, env, force, w1.disk, UpAndWatch(site, env, w1, r, stacks, changed, vanished));
  }

  lemma RunReachesUp(site: Site, w: World, env: Env, force: bool)
      returns (w': World, r: Result, stacks: seq<Stack>, changed: seq<Stack>, vanished: seq<Stack>)
    requires MayApply(w, env, force) && env.sound(3) && ChoiceSize(site, w, env) > 0
    requires Smooth(env, 0, RunsFirstUp(site, w, env))
    ensures ReconcileLocked(site, env, Options(false, force), Begin(w))
      == UpAndWatch(site, env, w', r, stacks, changed, vanished)
    ensures |changed| == ChoiceSize(site, w, env) && w'.tick == RunsFirstUp(site, w, env)
    ensures r.newCommit == env.branch != NO_COMMIT && !w'.cancelled
    ensures w'.mem == w'.disk && StillPending(w.disk, w'.disk, env.branch)
  {
    hide ReconcileLocked, ApplyAndWatch, UpAndWatch, MayApply;
    MayApplyNames(w, env, force);
    var w0, r0, previous := NormalReachesApply(site, w, env, force);
    r, stacks := r0, site.stacksAt(env.branch);
    SameChoice(env, w0.mem, r, stacks, []);
    hide Chosen;
    w', changed := ApplyReachesUp(site, env, w0, r, previous, []);
    vanished := Vanished(previous, stacks);
  }

  /** What holds of the record and worktree when an apply ends holds once the run is recorded. */
  lemma RunEndsAs(site: Site, w: World, env: Env, force: bool, s1: State, s: Step<Result>)
    requires ReconcileLocked(site, env, Options(false, force), Begin(w)) == s && StillPending(w.disk, s1, env.branch)
    ensures var w' := After(site, w, Attempt(Options(false, force), env));
      && (StillPending(s1, s.w.disk, env.branch) ==> StillPending(w.disk, w'.disk, env.branch))
      && (Undone(s1, s.w, env.branch) ==> Undone(w.disk, w', env.branch))
  {
    hide ReconcileLocked, RecordHistory;
    if s.Done? {
      HistoryWrites(s.w, env, s.value, Now(Begin(w), env));
      HistoryIsOnlySaves(s.w, env, s.value, Now(Begin(w), env));
    }
  }
}
