/** What an apply or a revert adds to the log, whatever its calls answer and wherever it dies: nothing is forgotten,
    and it pulls and brings up nothing but the stacks chosen. */
module Growth {
  import opened Records
  import opened Stacks
  import opened Protocol
  import opened Reverts

  /** A Pull of one of these projects, an Up of one from this commit, an Up at the rollback target, or no such event. */
  predicate Within(e: Event, commit: Commit, names: seq<Name>) {
    match e
    case Pulled(name, _) => name in names
    case Upped(name, tree, _, durable, _) => tree == durable.lastHealthy || (tree == commit && name in names)
    case _ => true
  }

  predicate Adds(w: World, w': World, commit: Commit, names: seq<Name>) {
    && w.log <= w'.log
    && w'.disk.history == w.disk.history
    && forall i :: |w.log| <= i < |w'.log| ==> Within(w'.log[i], commit, names)
  }

  /** The run's record and the durable one have the same rollback target and history. */
  predicate OneTarget(w: World) {
    w.mem.lastHealthy == w.disk.lastHealthy && w.mem.history == w.disk.history
  }

  lemma AddsMore(w: World, v: World, w': World, commit: Commit, names: seq<Name>)
    requires Adds(w, v, commit, names) && Adds(v, w', commit, names)
    ensures Adds(w, w', commit, names)
  {
    hide Within;
    forall i | |w.log| <= i < |w'.log| ensures Within(w'.log[i], commit, names) {
      if i < |v.log| {
        assert w'.log[i] == v.log[i];
      }
    }
  }

  lemma {:induction false} LoadAllAdds(w: World, env: Env, load: seq<Name>)
    ensures var w' := LoadAll(w, env, load).w; w'.log == w.log && w'.tree == w.tree && Unwritten(w, w')
    decreases |load|
  {
    if load != [] {
      LoadAllAdds(Ask(Ask(w, env).w, env).w, env, load[1..]);
    }
  }

  lemma {:induction false} PullAllAdds(w: World, env: Env, pull: seq<Name>, commit: Commit, names: seq<Name>)
    requires forall n :: n in pull ==> n in names
    ensures var w' := PullAll(w, env, pull).w; Adds(w, w', commit, names) && w'.tree == w.tree && Unwritten(w, w')
    decreases |pull|
  {
    if pull != [] {
      var w1 := Pull(w, env, pull[0]).w;
      PullAllAdds(w1, env, pull[1..], commit, names);
      AddsMore(w, w1, PullAll(w1, env, pull[1..]).w, commit, names);
    }
  }

  lemma {:induction false} UpAllAdds(w: World, env: Env, up: seq<Name>, commit: Commit, names: seq<Name>)
    requires w.tree == w.disk.lastHealthy || (w.tree == commit && forall n :: n in up ==> n in names)
    ensures var w' := UpAll(w, env, up).w; Adds(w, w', commit, names) && w'.tree == w.tree && Unwritten(w, w')
    decreases |up|
  {
    if up != [] {
      var w1 := Up(w, env, up[0]).w;
      UpAllAdds(w1, env, up[1..], commit, names);
      AddsMore(w, w1, UpAll(w1, env, up[1..]).w, commit, names);
    }
  }

  lemma {:induction false} TearDownAdds(w: World, env: Env, down: seq<Name>, commit: Commit, names: seq<Name>)
    ensures var w' := TearDown(w, env, down).w; Adds(w, w', commit, names) && w'.tree == w.tree && Unwritten(w, w')
    decreases |down|
  {
    if down != [] {
      var r := env.reply(w.tick);
      var w1 := Stopped(Tick(w, env), down[0], r.Ok? || (r.Crash? && env.lands(w.tick)));
      TearDownAdds(w1, env, down[1..], commit, names);
      AddsMore(w, w1, TearDown(w1, env, down[1..]).w, commit, names);
    }
  }

  lemma SaveAdds(w: World, env: Env, next: State, commit: Commit, names: seq<Name>)
    requires next.history == w.disk.history
    ensures Adds(w, Save(w, env, next).w, commit, names) && Adds(w, SaveNext(w, env, next).w, commit, names)
    ensures OneTarget(w) && next.lastHealthy == w.disk.lastHealthy ==>
      OneTarget(SaveNext(w, env, next).w) && SaveNext(w, env, next).w.disk.lastHealthy == w.disk.lastHealthy
    ensures SaveNext(w, env, next).w.tree == w.tree && Save(w, env, next).w.tree == w.tree
  {
  }

  lemma CheckoutAdds(w: World, env: Env, to: Commit, commit: Commit, names: seq<Name>)
    ensures var w' := Checkout(w, env, to).w; Adds(w, w', commit, names) && Unwritten(w, w')
  {
  }

  lemma OutcomeAdds(w: World, env: Env, r: Result, commit: Commit, names: seq<Name>)
    requires OneTarget(w)
    ensures Adds(w, Incomplete(w, env, r).w, commit, names)
  {
    hide SaveNext;
    SaveAdds(w, env, OutcomeOf(w.mem, FailedApply, r.newCommit, Now(w, env)), commit, names);
  }

  lemma AbortAdds(w: World, env: Env, r: Result, commit: Commit, names: seq<Name>)
    requires OneTarget(w)
    ensures Adds(w, AbortBeforeUp(w, env, r).w, commit, names)
  {
    hide Incomplete, Checkout, Adds;
    OutcomeAdds(w, env, r, commit, names);
    CheckoutAdds(w, env, r.oldCommit, commit, names);
    var w1 := Checkout(w, env, r.oldCommit).w;
    OutcomeAdds(w1, env, r, commit, names);
    AddsMore(w, w1, Incomplete(w1, env, r).w, commit, names);
  }

  lemma AbortApplyAdds(w: World, env: Env, r: Result, infra: bool, commit: Commit, names: seq<Name>)
    requires OneTarget(w)
    ensures Adds(w, AbortApply(w, env, r, infra).w, commit, names)
  {
    hide AbortBeforeUp, LastN, Without;
    AbortAdds(w, env, r, commit, names);
    AbortAdds(w.(mem := w.mem.MarkFailed(r.newCommit)), env, r, commit, names);
  }

  /*** Reverts ***/

  lemma FailedAdds(w: World, env: Env, failed: Commit, target: Commit, stacks: seq<Stack>, infra: bool, commit: Commit,
      names: seq<Name>)
    requires OneTarget(w)
    ensures Adds(w, RevertFailed(w, env, failed, target, stacks, infra).w, commit, names)
    ensures Adds(w, RevertInterrupted(w, env, failed, target, stacks).w, commit, names)
    ensures Adds(w, Degrade(w, env, failed, target).w, commit, names)
  {
    hide SaveNext, LastN, Without, Adds;
    SaveAdds(w, env, DegradedOf(w.mem, failed, Now(w, env)), commit, names);
    SaveAdds(w, env, InterruptedOf(w.mem, failed, Names(stacks), Now(w, env)), commit, names);
  }

  lemma FinishAdds(w: World, env: Env, stacks: seq<Stack>, failed: Commit, target: Commit, commit: Commit,
      names: seq<Name>)
    requires OneTarget(w)
    ensures Adds(w, FinishRevert(w, env, stacks, failed, target).w, commit, names)
  {
    hide SaveNext, RevertInterrupted, Degrade;
    var w1 := Watch(w, env, Names(stacks)).w;
    assert w1.log == w.log;
    FailedAdds(w1, env, failed, target, stacks, false, commit, names);
    SaveAdds(w1, env, RevertedOf(w1.mem, failed, target, Now(w1, env)), commit, names);
  }

  lemma RestoreAdds(w: World, env: Env, stacks: seq<Stack>, failed: Commit, target: Commit, commit: Commit,
      names: seq<Name>)
    requires w.tree == w.disk.lastHealthy && OneTarget(w)
    ensures Adds(w, RestoreStacks(w, env, stacks, failed, target).w, commit, names)
  {
    hide LoadAll, UpAll, RevertFailed, FinishRevert, Within;
    var up := Names(stacks);
    LoadAllAdds(w, env, up);
    var s1 := LoadAll(w, env, up);
    if s1.Crashed? { return; }
    if s1.value.Fault? {
      FailedAdds(s1.w, env, failed, target, stacks, s1.value.infra, commit, names);
      return;
    }
    UpAllAdds(s1.w, env, up, commit, names);
    var s2 := UpAll(s1.w, env, up);
    if s2.Crashed? { return; }
    FailedAdds(s2.w, env, failed, target, stacks, s2.value.Fault? && s2.value.infra, commit, names);
    FinishAdds(s2.w, env, stacks, failed, target, commit, names);
    AddsMore(w, s2.w, RestoreStacks(w, env, stacks, failed, target).w, commit, names);
  }

  lemma RevertAdds(site: Site, env: Env, w: World, stacks: seq<Stack>, failed: Commit, commit: Commit, names: seq<Name>)
    requires OneTarget(w)
    ensures Adds(w, DoRevert(site, env, w, stacks, failed).w, commit, names)
  {
    hide Degrade, RevertFailed, RestoreStacks, TearDown, Vanished, Intersect, Within, Adds;
    var target := w.mem.lastHealthy;
    FailedAdds(w, env, failed, NO_COMMIT, stacks, false, commit, names);
    if target == NO_COMMIT { return; }
    var s1 := Checkout(w, env, target);
    CheckoutAdds(w, env, target, commit, names);
    if s1.Crashed? { return; }
    var whole := DoRevert(site, env, w, stacks, failed).w;
    if s1.value.Fault? {
      FailedAdds(s1.w, env, failed, target, stacks, s1.value.infra, commit, names);
      AddsMore(w, s1.w, whole, commit, names);
      return;
    }
    var w1 := s1.w.(mem := s1.w.mem.(lastCheckout := target));
    var s2 := Discover(site, env, w1);
    SameLogAdds(w, s1.w, s2.w, commit, names);
    if s2.Crashed? { return; }
    if s2.value.0.Fault? {
      FailedAdds(s2.w, env, failed, target, stacks, s2.value.0.infra, commit, names);
      AddsMore(w, s2.w, whole, commit, names);
      return;
    }
    var gone := Names(Vanished(stacks, s2.value.1));
    TearDownAdds(s2.w, env, gone, commit, names);
    var s3 := TearDown(s2.w, env, gone);
    AddsMore(w, s2.w, s3.w, commit, names);
    if s3.Crashed? { return; }
    if s3.value.Fault? {
      FailedAdds(s3.w, env, failed, target, stacks, s3.value.infra, commit, names);
    } else {
      RestoreAdds(s3.w, env, Intersect(s2.value.1, stacks), failed, target, commit, names);
    }
    AddsMore(w, s3.w, whole, commit, names);
  }

  lemma SameLogAdds(w: World, v: World, w': World, commit: Commit, names: seq<Name>)
    requires Adds(w, v, commit, names) && w'.log == v.log && w'.disk.history == v.disk.history
    ensures Adds(w, w', commit, names)
  {
  }

  /*** Applies ***/

  lemma FailAndRevertAdds(site: Site, env: Env, w: World, stacks: seq<Stack>, r: Result, commit: Commit,
      names: seq<Name>)
    requires OneTarget(w)
    ensures Adds(w, FailAndRevert(site, env, w, stacks, r).w, commit, names)
  {
    hide DoRevert, Save, LastN, Without, Adds;
    var failed := w.mem.MarkFailed(r.newCommit).(lastResult := FailedApply);
    var w0 := w.(mem := failed);
    SaveAdds(w0, env, failed, commit, names);
    var s := Save(w0, env, failed);
    SameStartAdds(w, w0, s.w, commit, names);
    SaveKeepsTarget(w0, env, failed);
    if s.Done? {
      RevertAdds(site, env, s.w, stacks, r.newCommit, commit, names);
      AddsMore(w, s.w, DoRevert(site, env, s.w, stacks, r.newCommit).w, commit, names);
    }
  }

  lemma SameStartAdds(w: World, v: World, w': World, commit: Commit, names: seq<Name>)
    requires w.log == v.log && w.disk == v.disk && Adds(v, w', commit, names)
    ensures Adds(w, w', commit, names)
  {
  }

  lemma SaveKeepsTarget(w: World, env: Env, next: State)
    requires OneTarget(w) && next.lastHealthy == w.disk.lastHealthy && next.history == w.disk.history
    ensures OneTarget(Save(w, env, next).w)
  {
  }

  lemma TearDownAndPromoteAdds(site: Site, env: Env, w: World, r: Result, stacks: seq<Stack>, vanished: seq<Stack>,
                               commit: Commit, names: seq<Name>)
    requires OneTarget(w)
    ensures Adds(w, TearDownAndPromote(site, env, w, r, stacks, vanished).w, commit, names)
    ensures forall unsure :: Adds(w, ApplyNothing(site, env, w, r, stacks, vanished, unsure).w, commit, names)
  {
    hide TearDown, Incomplete, SaveNext, Adds, LastN, Without;
    TearDownAdds(w, env, Names(vanished), commit, names);
    var s := TearDown(w, env, Names(vanished));
    if s.Done? {
      OutcomeAdds(s.w, env, r, commit, names);
      SaveAdds(s.w, env, PromotedOf(s.w.mem, r.newCommit, Names(stacks), Now(s.w, env)), commit, names);
      AddsMore(w, s.w, Incomplete(s.w, env, r).w, commit, names);
      AddsMore(w, s.w, SaveNext(s.w, env, PromotedOf(s.w.mem, r.newCommit, Names(stacks), Now(s.w, env))).w, commit,
          names);
    }
  }

  lemma WatchAndSettleAdds(site: Site, env: Env, w: World, r: Result, stacks: seq<Stack>, changed: seq<Stack>,
                           vanished: seq<Stack>, commit: Commit, names: seq<Name>)
    requires OneTarget(w)
    ensures Adds(w, WatchAndSettle(site, env, w, r, stacks, changed, vanished).w, commit, names)
  {
    hide Incomplete, TearDownAndPromote, FailAndRevert;
    var w1 := Watch(w, env, Names(changed)).w;
    assert w1.log == w.log && Unwritten(w, w1);
    OutcomeAdds(w1, env, r, commit, names);
    TearDownAndPromoteAdds(site, env, w1, r, stacks, vanished, commit, names);
    FailAndRevertAdds(site, env, w1, changed, r, commit, names);
  }

  lemma UpAndWatchAdds(site: Site, env: Env, w: World, r: Result, stacks: seq<Stack>, changed: seq<Stack>,
      vanished: seq<Stack>)
    requires OneTarget(w) && w.tree == r.newCommit
    ensures Adds(w, UpAndWatch(site, env, w, r, stacks, changed, vanished).w, r.newCommit, Names(changed))
  {
    hide UpAll, Incomplete, FailAndRevert, WatchAndSettle, Within, Adds;
    var commit, names := r.newCommit, Names(changed);
    UpAllAdds(w, env, names, commit, names);
    var s := UpAll(w, env, names);
    if s.Crashed? { return; }
    OutcomeAdds(s.w, env, r, commit, names);
    FailAndRevertAdds(site, env, s.w, changed, r, commit, names);
    WatchAndSettleAdds(site, env, s.w, r.(applied := true), stacks, changed, vanished, commit, names);
    var whole := UpAndWatch(site, env, w, r, stacks, changed, vanished).w;
    assert Adds(s.w, whole, commit, names) by { NothingAdds(s.w, commit, names);
        SameLogAdds(s.w, s.w, s.w, commit, names); }
    AddsMore(w, s.w, whole, commit, names);
  }

  lemma NothingAdds(w: World, commit: Commit, names: seq<Name>)
    ensures Adds(w, w, commit, names)
  {
  }

  lemma ApplyChangedAdds(site: Site, env: Env, w: World, r: Result, stacks: seq<Stack>, changed: seq<Stack>,
      vanished: seq<Stack>)
    requires OneTarget(w) && w.tree == r.newCommit
    ensures Adds(w, ApplyChanged(site, env, w, r, stacks, changed, vanished).w, r.newCommit, Names(changed))
  {
    hide LoadAll, PullAll, SaveNext, AbortApply, AbortBeforeUp, UpAndWatch, Within, Adds;
    var commit, names := r.newCommit, Names(changed);
    var whole := ApplyChanged(site, env, w, r, stacks, changed, vanished).w;
    NothingAdds(w, commit, names);
    LoadAllAdds(w, env, names);
    var s1 := LoadAll(w, env, names);
    SameLogAdds(w, w, s1.w, commit, names);
    if s1.Crashed? { return; }
    if s1.value.Fault? {
      AbortApplyAdds(s1.w, env, r, s1.value.infra, commit, names);
      AddsMore(w, s1.w, whole, commit, names);
      return;
    }
    PullAllAdds(s1.w, env, names, commit, names);
    var s2 := PullAll(s1.w, env, names);
    AddsMore(w, s1.w, s2.w, commit, names);
    if s2.Crashed? { return; }
    if s2.value.Fault? {
      AbortApplyAdds(s2.w, env, r, s2.value.infra, commit, names);
      AddsMore(w, s2.w, whole, commit, names);
      return;
    }
    var next := PendingOf(s2.w.mem, commit, names, Now(s2.w, env));
    SaveAdds(s2.w, env, next, commit, names);
    var s3 := SaveNext(s2.w, env, next);
    AddsMore(w, s2.w, s3.w, commit, names);
    if s3.Crashed? { return; }
    AbortAdds(s3.w, env, r, commit, names);
    UpAndWatchAdds(site, env, s3.w, r, stacks, changed, vanished);
    AddsMore(w, s3.w, whole, commit, names);
  }

  /** An apply pulls and brings up, short of its revert, exactly such stacks as were chosen. */
  lemma ApplyAdds(site: Site, env: Env, w: World, r: Result, previous: seq<Stack>, pendingStacks: seq<Name>)
    requires OneTarget(w)
    ensures var changed := Chosen(env, w.mem, r, site.stacksAt(r.newCommit), pendingStacks).0;
      Adds(w, ApplyAndWatch(site, env, w, r, previous, pendingStacks).w, r.newCommit, Names(changed))
  {
    hide ApplyChanged, ApplyNothing, AbortApply, AbortBeforeUp, Chosen, NeedsOf, Within, Adds;
    var commit, names := r.newCommit, Names(Chosen(env, w.mem, r, site.stacksAt(r.newCommit), pendingStacks).0);
    var whole := ApplyAndWatch(site, env, w, r, previous, pendingStacks).w;
    var s1 := Checkout(w, env, commit);
    CheckoutAdds(w, env, commit, commit, names);
    if s1.Crashed? { return; }
    if s1.value.Fault? {
      AbortAdds(s1.w, env, r, commit, names);
      AddsMore(w, s1.w, whole, commit, names);
      return;
    }
    var s2 := Discover(site, env, s1.w);
    SameLogAdds(w, s1.w, s2.w, commit, names);
    if s2.Crashed? { return; }
    if s2.value.0.Fault? {
      AbortApplyAdds(s2.w, env, r, s2.value.0.infra, commit, names);
      AddsMore(w, s2.w, whole, commit, names);
      return;
    }
    var stacks := s2.value.1;
    var (changed, unsure) := Chosen(env, s2.w.mem, r, stacks, pendingStacks);
    var seen := s2.w.seen.(needs := NeedsOf(env, s2.w.mem, r, stacks, pendingStacks), former := NameSet(previous));
    var w3 := s2.w.(seen := seen);
    SameLogAdds(w, s2.w, w3, commit, names);
    TearDownAndPromoteAdds(site, env, w3, r, stacks, Vanished(previous, stacks), commit, names);
    ApplyChangedAdds(site, env, w3, r, stacks, changed, Vanished(previous, stacks));
    AddsMore(w, w3, whole, commit, names);
  }

  /*** Whole runs ***/

  /** The log has grown and the history is as it was. */
  predicate Grows(w: World, w': World) {
    w.log <= w'.log && w'.disk.history == w.disk.history
  }

  /** What a recovery run does once it has counted itself. */
  lemma ResumedGrows(site: Site, env: Env, w: World, commit: Commit, superseding: Commit, found: seq<Stack>,
      healthy: bool)
    requires OneTarget(w)
    ensures Grows(w, Resumed(site, env, w, commit, superseding, found, healthy).w)
  {
    hide DoRevert, ApplyAndWatch;
    var previous := Deployed(w.mem.lastHealthyStacks, found);
    RevertAdds(site, env, w, Restrict(found, w.mem.pendingStacks), commit, NO_COMMIT, []);
    ApplyAdds(site, env, w, BLANK.(changed := true, newCommit := superseding, oldCommit := commit), previous, []);
    ApplyAdds(site, env, w, BLANK.(newCommit := commit, oldCommit := w.mem.lastHealthy), previous, w.mem.pendingStacks);
  }

  lemma ResumeGrows(site: Site, env: Env, w: World, commit: Commit, superseding: Commit)
    requires OneTarget(w)
    ensures Grows(w, Resume(site, env, w, commit, superseding).w)
  {
    hide Resumed;
    var s1 := Discover(site, env, w);
    if s1.Crashed? || s1.value.0.Fault? { return; }
    var s2 := if s1.w.mem.RevertInProgress() then Done(s1.w, (NoFault, false)) else Judge(s1.w, env);
    if s2.Crashed? || s2.value.0.Fault? { return; }
    var s3 := SaveNext(s2.w, env, AttemptOf(s2.w.mem));
    if s3.Done? && s3.value {
      ResumedGrows(site, env, s3.w, commit, superseding, s1.value.1, s2.value.1);
    }
  }

  lemma SupersedingIsStill(w: World, env: Env, force: bool, pending: Commit)
    ensures var w' := SupersedingCommit(w, env, force, pending).w; Unwritten(w, w') && w'.log == w.log
  {
  }

  lemma RecoveryGrows(site: Site, env: Env, opts: Options, w: World)
    requires OneTarget(w)
    ensures Grows(w, RecoverFromCrash(site, env, opts, w).w)
  {
    hide Resume, Degrade, RecoveryExpired, SupersedingCommit;
    var commit := w.mem.pendingCommit;
    var w0 := if opts.force then w.(mem := w.mem.(pendingAttempts := 0, pendingSince := Now(w, env))) else w;
    var s := if w0.mem.RevertInProgress() then Done(w0, NO_COMMIT) else SupersedingCommit(w0, env, opts.force, commit);
    SupersedingIsStill(w0, env, opts.force, commit);
    if s.Done? {
      FailedAdds(s.w, env, commit, NO_COMMIT, [], false, NO_COMMIT, []);
      ResumeGrows(site, env, s.w, commit, s.value);
    }
  }

  lemma OutcomeGrows(w: World, env: Env, verdict: Verdict, commit: Commit)
    requires OneTarget(w)
    ensures Grows(w, RecordOutcome(w, env, verdict, commit).w)
  {
    hide SaveNext;
    SaveAdds(w, env, OutcomeOf(w.mem, verdict, commit, Now(w, env)), NO_COMMIT, []);
  }

  lemma AdvanceGrows(w: World, env: Env, r: Result)
    requires OneTarget(w)
    ensures Grows(w, AdvanceCheckout(w, env, r).w)
  {
    hide SaveNext, AbortBeforeUp;
    var w1 := Checkout(w, env, r.newCommit).w;
    AbortAdds(w1, env, r, NO_COMMIT, []);
    SaveAdds(w1, env, CheckoutOf(w1.mem, r.newCommit, Now(w1, env)), NO_COMMIT, []);
  }

  lemma BlockGrows(site: Site, env: Env, force: bool, w: World, r: Result, previous: seq<Stack>)
    requires OneTarget(w)
    ensures Grows(w, PreflightBlocked(site, env, force, w, r, previous).w)
  {
    hide SaveNext, Degrade, DoRevert;
    var w0 := if force then w.(mem := w.mem.(preflightBlocks := 0)) else w;
    FailedAdds(w0, env, NO_COMMIT, w0.mem.lastHealthy, [], false, NO_COMMIT, []);
    if w0.mem.preflightBlocks < MAX_PREFLIGHT_BLOCKS {
      var next := w0.mem.(preflightBlocks := w0.mem.preflightBlocks + 1);
      SaveAdds(w0, env, next, NO_COMMIT, []);
      var s := SaveNext(w0, env, next);
      if s.Done? {
        RevertAdds(site, env, s.w, previous, NO_COMMIT, NO_COMMIT, []);
      }
    }
  }

  lemma PassGrows(site: Site, env: Env, w: World, r: Result, previous: seq<Stack>)
    requires OneTarget(w)
    ensures Grows(w, PassGate(site, env, w, r, previous).w)
  {
    hide SaveNext, ApplyAndWatch;
    SaveAdds(w, env, w.mem.(preflightBlocks := 0), NO_COMMIT, []);
    var w1 := ClearBlocks(w, env).w;
    ApplyAdds(site, env, w1, r, Deployed(w1.mem.lastHealthyStacks, previous), []);
  }

  lemma GateGrows(site: Site, env: Env, opts: Options, w: World, r: Result)
    requires OneTarget(w)
    ensures Grows(w, Gate(site, env, opts, w, r).w)
  {
    hide PreflightBlocked, PassGate, RecordOutcome;
    var s := Discover(site, env, w);
    if s.Crashed? { return; }
    var previous := if s.value.0.Fault? then Deployed(s.w.mem.lastHealthyStacks, []) else s.value.1;
    var w2 := Judge(s.w, env).w;
    OutcomeGrows(w2, env, FailedPreflight, r.newCommit);
    BlockGrows(site, env, opts.force, w2, r, previous);
    PassGrows(site, env, w2, r, previous);
  }

  lemma NormalGrows(site: Site, env: Env, opts: Options, w: World)
    requires OneTarget(w)
    ensures Grows(w, RunNormal(site, env, opts, w).w)
  {
    hide Gate, AdvanceCheckout, RecordOutcome;
    var s := Fetch(w, env);
    OutcomeGrows(s.w, env, FailedGit, NO_COMMIT);
    OutcomeGrows(s.w, env, SkippedKnownBad, env.branch);
    var r := BLANK.(changed := s.w.tree != env.branch, oldCommit := s.w.tree, newCommit := env.branch,
                    files := if s.w.tree != env.branch then env.diff else []);
    AdvanceGrows(s.w, env, r.(skipped := true));
    GateGrows(site, env, opts, s.w, r.(changed := true));
  }

  /** Up to the entry at its end, no run forgets anything of the log or touches the history, whatever its calls answer
      and wherever it dies. */
  lemma RunGrows(site: Site, env: Env, opts: Options, w: World)
    ensures Grows(w, ReconcileLocked(site, env, opts, w).w)
  {
    hide RecoverFromCrash, RunNormal;
    var w1 := Ask(w, env).w.(mem := w.disk, loaded := w.disk);
    RecoveryGrows(site, env, opts, w1);
    NormalGrows(site, env, opts, w1);
  }
}
