/** Every path of revert.go keeps the invariant, at every crash point. */
module RevertSafety {
  import opened Records
  import opened Stacks
  import opened Protocol
  import opened Safety

  lemma DegradeKeeps(site: Site, m: Mode, w: World, env: Env, failedCommit: Commit, target: Commit)
    requires Live(site, m, w) && (failedCommit == w.mem.pendingCommit || failedCommit == NO_COMMIT)
    ensures Inv(site, m, Degrade(w, env, failedCommit, target).w)
  {
    hide Chronicle, Marked, Open, Legitimate, LastN, Without;
    MarkedKnows(NotPending(w.mem).(lastResult := Degraded, lastAttemptAt := Now(w, env)), failedCommit,
        w.mem.lastHealthy);
    SaveKeeps(site, m, w, env, DegradedOf(w.mem, failedCommit, Now(w, env)));
  }

  lemma InterruptedFits(site: Site, m: Mode, w: World, stacks: seq<Stack>, now: Instant)
    requires Live(site, m, w) && Covers(m, w, NameSet(stacks)) && now > 0
    ensures Fit(site, m, w, InterruptedOf(w.mem, w.mem.pendingCommit, Names(stacks), now))
  {
    hide Chronicle, Open, LastN, Without;
    var commit := w.mem.pendingCommit;
    var next := w.mem.(pendingRevert := true, pendingCommit := commit,
                       pendingStacks := if stacks != [] then Names(stacks) else w.mem.pendingStacks,
                       pendingSince := if w.mem.pendingSince == 0 then now else w.mem.pendingSince,
                       lastAttemptAt := now, lastResult := FailedApply);
    MarkedKnows(next, commit, next.lastHealthy);
  }

  lemma RevertInterruptedKeeps(site: Site, m: Mode, w: World, env: Env, target: Commit, stacks: seq<Stack>)
    requires Live(site, m, w) && Covers(m, w, NameSet(stacks))
    ensures Inv(site, m, RevertInterrupted(w, env, w.mem.pendingCommit, target, stacks).w)
  {
    hide Chronicle, Open, Settles, LastN, Without;
    InterruptedFits(site, m, w, stacks, Now(w, env));
    SaveKeeps(site, m, w, env, InterruptedOf(w.mem, w.mem.pendingCommit, Names(stacks), Now(w, env)));
  }

  lemma RevertFailedKeeps(site: Site, m: Mode, w: World, env: Env, target: Commit, stacks: seq<Stack>, infra: bool)
    requires Live(site, m, w) && Covers(m, w, NameSet(stacks))
    ensures Inv(site, m, RevertFailed(w, env, w.mem.pendingCommit, target, stacks, infra).w)
  {
    if w.cancelled || infra {
      RevertInterruptedKeeps(site, m, w, env, target, stacks);
    } else {
      DegradeKeeps(site, m, w, env, w.mem.pendingCommit, target);
    }
  }

  /** While an apply is under way, its pending stacks are among these. */
  predicate Holds(w: World, names: set<Name>) {
    Open(w.log) ==> SetOf(w.disk.pendingStacks) <= names
  }

  /** All that may run belongs to the rollback target, every dirty project is one of `stacks`, and the pending ones that
      are not have been torn down. */
  predicate Restorable(m: Mode, w: World, stacks: seq<Stack>) {
    && w.tree == w.mem.lastHealthy
    && NameSet(stacks) <= SetOf(w.mem.lastHealthyStacks)
    && (m.counts ==> w.running <= SetOf(w.mem.lastHealthyStacks))
    && (m.traces ==> w.dirty.Keys <= NameSet(stacks))
    && Holds(w, NameSet(stacks) + w.seen.down)
  }

  lemma RevertIsFinished(site: Site, m: Mode, w: World, w': World, env: Env, stacks: seq<Stack>)
    requires Live(site, m, w') && Restorable(m, w, stacks) && SameRecords(w, w') && w'.running == w.running
        && w'.dirty == w.dirty
    requires Open(w'.log) == Open(w.log) && w'.seen.down == w.seen.down
    requires NameSet(stacks) <= w'.seen.up && NameSet(stacks) <= w'.seen.healthy && (m.traces ==> w'.dirty.Keys == {})
    ensures Inv(site, m, SaveNext(w', env, RevertedOf(w'.mem, w'.mem.pendingCommit, w'.mem.lastHealthy,
        Now(w', env))).w)
  {
    hide Chronicle, Open, Marked, Legitimate;
    SaveKeeps(site, m, w', env, RevertedOf(w'.mem, w'.mem.pendingCommit, w'.mem.lastHealthy, Now(w', env)));
  }

  lemma FinishRevertKeeps(site: Site, m: Mode, w: World, env: Env, stacks: seq<Stack>)
    requires Live(site, m, w) && Restorable(m, w, stacks)
    requires m.traces ==> w.dirty.Keys == {}
    requires NameSet(stacks) <= w.seen.up
    ensures Inv(site, m, FinishRevert(w, env, stacks, w.mem.pendingCommit, w.mem.lastHealthy).w)
  {
    hide Chronicle, Marked, Open;
    WatchKeeps(site, m, w, env, Names(stacks));
    var s := Watch(w, env, Names(stacks));
    if s.Crashed? { return; }
    if s.value.0.Fault? {
      RevertInterruptedKeeps(site, m, s.w, env, w.mem.lastHealthy, stacks);
    } else if !s.value.1 {
      DegradeKeeps(site, m, s.w, env, w.mem.pendingCommit, w.mem.lastHealthy);
    } else {
      RevertIsFinished(site, m, w, s.w, env, stacks);
    }
  }

  lemma RestoreStacksKeeps(site: Site, m: Mode, w: World, env: Env, stacks: seq<Stack>)
    requires Live(site, m, w) && Restorable(m, w, stacks)
    ensures Inv(site, m, RestoreStacks(w, env, stacks, w.mem.pendingCommit, w.mem.lastHealthy).w)
  {
    hide Chronicle, Open, Marked, FinishRevert, RevertFailed;
    var target := w.mem.lastHealthy;
    LoadAllKeeps(site, m, w, env, Names(stacks));
    var s1 := LoadAll(w, env, Names(stacks));
    if s1.Crashed? { return; }
    if s1.value.Fault? {
      RevertFailedKeeps(site, m, s1.w, env, target, stacks, s1.value.infra);
      return;
    }
    UpAllKeeps(site, m, s1.w, env, Names(stacks));
    var s2 := UpAll(s1.w, env, Names(stacks));
    if s2.Crashed? { return; }
    if s2.value.Fault? {
      RevertFailedKeeps(site, m, s2.w, env, target, stacks, s2.value.infra);
      return;
    }
    FinishRevertKeeps(site, m, s2.w, env, stacks);
  }

  lemma NoteCheckout(site: Site, m: Mode, w: World, commit: Commit)
    requires Live(site, m, w)
    ensures Live(site, m, w.(mem := w.mem.(lastCheckout := commit)))
  {
    hide Chronicle, Marked, Open;
  }

  /** Once the stacks unknown to the rollback target are down, the rest can be restored. */
  lemma TornDownIsRestorable(site: Site, m: Mode, w: World, stacks: seq<Stack>, here: seq<Stack>)
    requires Live(site, m, w) && Covers(m, w, NameSet(stacks)) && Holds(w, NameSet(stacks))
    requires w.tree == w.mem.lastHealthy != NO_COMMIT && here == site.stacksAt(w.tree)
    requires w.running !! NameSet(Vanished(stacks, here)) && w.dirty.Keys !! NameSet(Vanished(stacks, here))
    requires NameSet(Vanished(stacks, here)) <= w.seen.down
    ensures Restorable(m, w, Intersect(here, stacks))
  {
    hide Chronicle, Marked, Open;
  }

  lemma DoRevertKeeps(site: Site, m: Mode, w: World, env: Env, stacks: seq<Stack>)
    requires Live(site, m, w) && Covers(m, w, NameSet(stacks)) && Holds(w, NameSet(stacks))
    ensures Inv(site, m, DoRevert(site, env, w, stacks, w.mem.pendingCommit).w)
  {
    hide RestoreStacks, RevertFailed, Degrade, Checkout, TearDown, Inv, Fit;
    var target := w.mem.lastHealthy;
    if target == NO_COMMIT {
      DegradeKeeps(site, m, w, env, w.mem.pendingCommit, NO_COMMIT);
      return;
    }
    CheckoutKeeps(site, m, w, env, target);
    var s1 := Checkout(w, env, target);
    if s1.Crashed? { return; }
    if s1.value.Fault? {
      RevertFailedKeeps(site, m, s1.w, env, target, stacks, s1.value.infra);
      return;
    }
    NoteCheckout(site, m, s1.w, target);
    var w1 := s1.w.(mem := s1.w.mem.(lastCheckout := target));
    AskKeeps(site, m, w1, env);
    var s2 := Discover(site, env, w1);
    if s2.Crashed? { return; }
    if s2.value.0.Fault? {
      RevertFailedKeeps(site, m, s2.w, env, target, stacks, s2.value.0.infra);
      return;
    }
    var gone := Vanished(stacks, s2.value.1);
    TearDownKeeps(site, m, s2.w, env, Names(gone));
    var s3 := TearDown(s2.w, env, Names(gone));
    if s3.Crashed? { return; }
    if s3.value.Fault? {
      RevertFailedKeeps(site, m, s3.w, env, target, stacks, s3.value.infra);
      return;
    }
    TornDownIsRestorable(site, m, s3.w, stacks, s2.value.1);
    RestoreStacksKeeps(site, m, s3.w, env, Intersect(s2.value.1, stacks));
  }
}
