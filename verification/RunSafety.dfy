/** Recovery, whole runs, and sequences of runs: the invariant over every reachable state, and what it says. */
module RunSafety {
  import opened Records
  import opened Stacks
  import opened Protocol
  import opened Safety
  import opened RevertSafety
  import opened ApplySafety

  lemma AttemptFits(site: Site, m: Mode, w: World)
    requires Live(site, m, w) && w.mem.Pending() && !m.hold.Pending()
    requires m.superseded || w.mem.pendingAttempts < MAX_RECOVERY_ATTEMPTS
    ensures Fit(site, m, w, AttemptOf(w.mem)) && SameTarget(w.disk, AttemptOf(w.mem))
    ensures !m.revived ==> AttemptOf(w.mem).lastResult != Degraded
  {
    hide Chronicle, Marked, Open, Settles;
  }

  /** Saving the count touches no container. */
  lemma AttemptIsOne(w: World, env: Env)
    requires w.mem.Pending()
    ensures w.disk == w.mem ==> OneAttempt(w.mem, SaveNext(w, env, AttemptOf(w.mem)).w, |w.log|)
    ensures var w' := SaveNext(w, env, AttemptOf(w.mem)).w; forall i :: |w.log| <= i < |w'.log| ==> w'.log[i].Saved?
  {
  }

  /** From here on the run belongs to the attempt its own record has counted. */
  lemma CountedIsHeld(site: Site, m: Mode, w: World, mark: nat)
    requires Live(site, m, w) && w.mem == w.disk && w.mem.Pending() && !m.superseded && !m.hold.Pending()
    requires forall i :: mark <= i < |w.log| ==> w.log[i].Saved?
    ensures Live(site, m.(hold := w.mem, mark := mark), w)
  {
    var h := m.(hold := w.mem, mark := mark);
    assert forall i :: 0 <= i < |w.log| && EventGuarded(m, w.log[i]) ==> EventGuarded(h, w.log[i]);
  }

  lemma HeldIsFree(site: Site, m: Mode, hold: State, mark: nat, w: World)
    requires Inv(site, m.(hold := hold, mark := mark), w) && !m.hold.Pending()
    ensures Inv(site, m, w)
  {
    assert forall i :: 0 <= i < |w.log| && EventGuarded(m.(hold := hold, mark := mark), w.log[i]) ==>
        EventGuarded(m, w.log[i]);
  }

  /** The stacks recovery reverts are the pending ones, or everything found when none are named. */
  lemma PendingCovers(site: Site, m: Mode, w: World, discovered: seq<Stack>)
    requires Live(site, m, w)
    ensures Covers(m, w, NameSet(Restrict(discovered, w.mem.pendingStacks)))
    ensures w.mem == w.disk ==> Holds(w, NameSet(Restrict(discovered, w.mem.pendingStacks)))
  {
    hide Chronicle, Marked, Open, Settles;
    assert w.mem.pendingStacks == [] ==> SetOf(w.mem.pendingStacks) == {};
  }

  /** The part of recoverFromCrash that follows the counted attempt. */
  lemma ResumedKeeps(site: Site, m: Mode, w: World, env: Env, superseding: Commit, found: seq<Stack>, healthy: bool)
    requires Live(site, m, w) && w.mem.Pending() && w.mem == w.disk
    requires healthy ==> !w.mem.RevertInProgress()
    requires !w.mem.RevertInProgress() ==> Applicable(site, m, w, BLANK.(newCommit := w.mem.pendingCommit),
        w.mem.pendingStacks)
    requires superseding != NO_COMMIT ==> Applicable(site, m, w, BLANK.(newCommit := superseding), [])
    ensures Inv(site, m, Resumed(site, env, w, w.mem.pendingCommit, superseding, found, healthy).w)
  {
    hide ApplyAndWatch, DoRevert, Inv, Fit;
    var previous := Deployed(w.mem.lastHealthyStacks, found);
    if !healthy {
      PendingCovers(site, m, w, found);
      DoRevertKeeps(site, m, w, env, Restrict(found, w.mem.pendingStacks));
    } else if superseding != NO_COMMIT {
      ApplyAndWatchKeeps(site, m, w, env,
        BLANK.(changed := true, newCommit := superseding, oldCommit := w.mem.pendingCommit), previous, []);
    } else {
      ApplyAndWatchKeeps(site, m, w, env,
        BLANK.(newCommit := w.mem.pendingCommit, oldCommit := w.mem.lastHealthy), previous, w.mem.pendingStacks);
    }
  }

  /** What one recovery attempt may do to the pending record `s`: settle it, leave it, or count itself, and touch Docker
      only once it is durably counted. */
  predicate OneAttempt(s: State, w': World, mark: nat) {
    && (w'.disk.Pending() ==>
          && w'.disk.pendingCommit == s.pendingCommit && w'.disk.pendingSince == s.pendingSince
          && s.pendingAttempts <= w'.disk.pendingAttempts <= s.pendingAttempts + 1)
    && (forall i :: mark <= i < |w'.log| && TouchesDocker(w'.log[i]) ==>
          && w'.log[i].durable.Pending() && w'.log[i].durable.pendingAttempts
              == s.pendingAttempts + 1 <= MAX_RECOVERY_ATTEMPTS
          && (w'.disk.Pending() ==> w'.disk.pendingAttempts == s.pendingAttempts + 1))
  }

  lemma HeldIsOneAttempt(site: Site, m: Mode, s: State, w': World, mark: nat)
    requires Inv(site, m, w') && m.hold.Pending() && m.hold == AttemptOf(s) && m.mark == mark
    requires s.pendingAttempts < MAX_RECOVERY_ATTEMPTS
    ensures OneAttempt(s, w', mark)
  {
  }

  /** Recovery counts the attempt before it touches Docker, and then reverts or applies. */
  lemma ResumeKeeps(site: Site, m: Mode, w: World, env: Env, superseding: Commit)
    requires Live(site, m, w) && w.mem.Pending() && !m.hold.Pending()
    requires m.superseded || w.mem.pendingAttempts < MAX_RECOVERY_ATTEMPTS
    requires !w.mem.RevertInProgress() ==> Applicable(site, m, w, BLANK.(newCommit := w.mem.pendingCommit),
        w.mem.pendingStacks)
    requires superseding != NO_COMMIT ==> Applicable(site, m, w, BLANK.(newCommit := superseding), [])
    ensures var w' := Resume(site, env, w, w.mem.pendingCommit, superseding).w;
      Inv(site, m, w') && (!m.superseded && w.disk == w.mem ==> OneAttempt(w.mem, w', |w.log|))
  {
    hide Resumed, SaveNext, Inv, Fit, Open, Settles, Leaves;
    AskKeeps(site, m, w, env);
    var s1 := Discover(site, env, w);
    if s1.Crashed? || s1.value.0.Fault? { return; }
    AskKeeps(site, m, s1.w, env);
    var s2 := if s1.w.mem.RevertInProgress() then Done(s1.w, (NoFault, false)) else Judge(s1.w, env);
    if s2.Crashed? || s2.value.0.Fault? { return; }
    AttemptFits(site, m, s2.w);
    SaveNextKeeps(site, m, s2.w, env, AttemptOf(s2.w.mem));
    AttemptIsOne(s2.w, env);
    var s3 := SaveNext(s2.w, env, AttemptOf(s2.w.mem));
    if s3.Crashed? || !s3.value { return; }
    StillApplicable(site, m, w, s3.w, BLANK.(newCommit := w.mem.pendingCommit), w.mem.pendingStacks);
    StillApplicable(site, m, w, s3.w, BLANK.(newCommit := superseding), []);
    hide Applicable, OneAttempt;
    CountedKeeps(site, m, w.mem, s3.w, env, superseding, s1.value.1, s2.value.1, |w.log|);
  }

  /** Counting the attempt changes nothing about what may be applied. */
  lemma StillApplicable(site: Site, m: Mode, w: World, w': World, r: Result, pendingStacks: seq<Name>)
    requires w'.mem == AttemptOf(w.mem) && w'.loaded == w.loaded
    ensures Applicable(site, m, w, r, pendingStacks) ==> Applicable(site, m, w', r, pendingStacks)
  {
  }

  /** What follows the counted attempt, in a mode that holds the run to it where it can. */
  lemma CountedKeeps(site: Site, m: Mode, before: State, w: World, env: Env, superseding: Commit, found: seq<Stack>,
      healthy: bool, mark: nat)
    requires Live(site, m, w) && w.mem == w.disk == AttemptOf(before) && before.Pending() && !m.hold.Pending()
    requires m.superseded || before.pendingAttempts < MAX_RECOVERY_ATTEMPTS
    requires healthy ==> !w.mem.RevertInProgress()
    requires !w.mem.RevertInProgress() ==> Applicable(site, m, w, BLANK.(newCommit := w.mem.pendingCommit),
        w.mem.pendingStacks)
    requires superseding != NO_COMMIT ==> Applicable(site, m, w, BLANK.(newCommit := superseding), [])
    requires !m.superseded ==> forall i :: mark <= i < |w.log| ==> w.log[i].Saved?
    ensures var w' := Resumed(site, env, w, w.mem.pendingCommit, superseding, found, healthy).w;
      Inv(site, m, w') && (!m.superseded ==> OneAttempt(before, w', mark))
  {
    hide Resumed, Live, Inv, OneAttempt, Leaves;
    if m.superseded {
      ResumedKeeps(site, m, w, env, superseding, found, healthy);
    } else {
      var h := m.(hold := w.mem, mark := mark);
      var w' := Resumed(site, env, w, w.mem.pendingCommit, superseding, found, healthy).w;
      CountedIsHeld(site, m, w, mark);
      ResumedKeeps(site, h, w, env, superseding, found, healthy);
      HeldIsFree(site, m, h.hold, h.mark, w');
      HeldIsOneAttempt(site, h, before, w', mark);
    }
  }

  /** The branch has moved past the pending commit to one this run may deploy. */
  predicate Supersedes(s: State, branch: Commit, force: bool) {
    && s.Pending() && !s.RevertInProgress()
    && branch != NO_COMMIT && branch != s.pendingCommit
    && (force || !s.IsKnownBad(branch))
  }

  /** A run whose fetch is this call finds that out. */
  predicate Finds(s: State, tree: Commit, env: Env, call: nat, force: bool) {
    Supersedes(s, env.branch, force) && env.reply(call).Ok? && (tree == env.branch || tree != NO_COMMIT)
  }

  /** The mode allows for a run that drops this pending record for the branch head. */
  predicate MaySupersede(site: Site, m: Mode, s: State, branch: Commit) {
    && m.superseded
    && (m.counts ==> Leaves(site, s, branch))
    && (m.traces ==> HasAll(site, s, branch))
    && (m.retried || branch != s.lastHealthy)
  }

  lemma RestartedKeeps(site: Site, m: Mode, w: World, now: Instant)
    requires Live(site, m, w) && w.mem.Pending() && !m.hold.Pending() && now > 0
    ensures Live(site, m, w.(mem := w.mem.(pendingAttempts := 0, pendingSince := now)))
  {
    hide Chronicle, Marked, Open, Settles;
  }

  lemma LimitHolds(site: Site, m: Mode, w: World)
    requires Live(site, m, w)
    ensures w.mem.pendingCommit != NO_COMMIT ==> m.retried || w.mem.pendingCommit != w.mem.lastHealthy
    ensures !m.forced && w.mem.IsKnownBad(w.mem.pendingCommit) ==> w.mem.RevertInProgress()
  {
    hide Chronicle, Marked, Open;
  }

  lemma RecoverKeeps(site: Site, m: Mode, w: World, env: Env, opts: Options)
    requires Live(site, m, w) && w.mem.Pending() && w.loaded == w.mem && !m.hold.Pending()
    requires opts.force ==> m.forced
    requires Finds(w.mem, w.tree, env, w.tick, opts.force) ==> MaySupersede(site, m, w.mem, env.branch)
    ensures Inv(site, m, RecoverFromCrash(site, env, opts, w).w)
  {
    hide Live, Inv, Fit, Resume, Degrade;
    LiveIsInv(site, m, w);
    if opts.dryRun { return; }
    var w0 := if opts.force then w.(mem := w.mem.(pendingAttempts := 0, pendingSince := Now(w, env))) else w;
    if opts.force {
      RestartedKeeps(site, m, w, Now(w, env));
    }
    AskKeeps(site, m, w0, env);
    LimitHolds(site, m, w0);
    LiveIsInv(site, m, w0);
    LiveIsInv(site, m, Ask(w0, env).w);
    var s := if w0.mem.RevertInProgress() then Done(w0, NO_COMMIT)
        else SupersedingCommit(w0, env, opts.force, w.mem.pendingCommit);
    if s.Crashed? { return; }
    if s.value == NO_COMMIT
       && (s.w.mem.pendingAttempts >= MAX_RECOVERY_ATTEMPTS || RecoveryExpired(site, s.w.mem, Now(s.w, env))) {
      DegradeKeeps(site, m, s.w, env, w.mem.pendingCommit, NO_COMMIT);
    } else {
      ResumeKeeps(site, m, s.w, env, s.value);
    }
  }

  /** A run loads the record with its first call and fetches with its second. */
  const FETCH := 1

  /** Any run at all. */
  const ANY := Mode(true, true, true, true, false, false, 0, New(), 0)

  predicate Allowed(site: Site, m: Mode, w: World, t: Turn) {
    t.Attempt? ==>
      && (t.opts.force ==> m.forced)
      && (t.opts.force && w.disk.lastResult == Degraded ==> m.revived && Accounted(m, w, w.disk))
      && (Finds(w.disk, w.tree, t.env, FETCH, t.opts.force) ==> MaySupersede(site, m, w.disk, t.env.branch))
      && (!w.disk.Pending() && Retries(w.disk, w.tree, t.env.branch) ==> m.retried)
  }

  lemma InvElsewhere(site: Site, m: Mode, w: World, w': World)
    requires Inv(site, m, w) && w'.disk == w.disk && w'.running == w.running && w'.dirty == w.dirty && w'.log == w.log
    ensures Inv(site, m, w')
  {
    hide Chronicle, Marked, Open;
  }

  lemma LoadedIsLive(site: Site, m: Mode, w: World)
    requires m.Valid() && !m.hold.Pending() && Inv(site, m, w) && w.mem == w.disk
    requires w.disk.lastResult == Degraded ==> m.revived && Accounted(m, w, w.disk)
    ensures Live(site, m, w)
  {
    hide Chronicle, Marked, Open;
  }

  lemma ReconcileLockedKeeps(site: Site, m: Mode, w: World, env: Env, opts: Options)
    requires m.Valid() && !m.hold.Pending() && Inv(site, m, w) && Allowed(site, m, w, Attempt(opts, env)) && w.tick == 0
    ensures Inv(site, m, ReconcileLocked(site, env, opts, w).w)
  {
    hide Inv, Live, RecoverFromCrash, RunNormal, Leaves;
    InvElsewhere(site, m, w, Tick(w, env));
    var s := Ask(w, env);
    if s.Crashed? || s.value.Fault? { return; }
    var w2 := s.w.(mem := s.w.disk, loaded := s.w.disk);
    InvElsewhere(site, m, w, w2);
    InvElsewhere(site, m, w, Tick(w2, env));
    if w2.mem.lastResult != Degraded || opts.force {
      LoadedIsLive(site, m, w2);
    }
    if w2.mem.Paused(Now(w2, env)) || (w2.mem.lastResult == Degraded && !opts.force) {
    } else if w2.mem.Pending() {
      RecoverKeeps(site, m, w2, env, opts);
    } else {
      RunNormalKeeps(site, m, w2, env, opts);
    }
  }

  lemma RecordHistoryKeeps(site: Site, m: Mode, w: World, env: Env, r: Result, runStart: Instant)
    requires Inv(site, m, w)
    ensures Inv(site, m, RecordHistory(w, env, r, runStart).w)
  {
    hide Chronicle, Mark, Marked, Open, Settles, LastN, Extend;
    var s := Ask(w, env);
    var d := Deployment(s.w.disk.lastAttemptAt, r.newCommit, s.w.disk.lastResult, r.rolledBackTo, 0);
    SaveKeeps(site, m, s.w, env, s.w.disk.Record(d));
  }

  lemma RetimedChronicle(site: Site, m: Mode, s: State, s': State, log: seq<Event>)
    requires Chronicle(site, m, s, log) && SameTarget(s, s')
    ensures Chronicle(site, m, s', log)
  {
    hide LogOk, Legitimate;
  }

  lemma TurnKeeps(site: Site, m: Mode, w: World, t: Turn)
    requires m.Valid() && !m.hold.Pending() && Inv(site, m, w) && Allowed(site, m, w, t)
    ensures Inv(site, m, After(site, w, t))
  {
    hide Chronicle, Marked, Open, Settles;
    hide ReconcileLocked, RecordHistory;
    if t.SetPause? {
      RetimedChronicle(site, m, w.disk, After(site, w, t).disk, w.log);
    } else if t.Attempt? {
      var w0 := Begin(w);
      ReconcileLockedKeeps(site, m, w0, t.env, t.opts);
      var s := ReconcileLocked(site, t.env, t.opts, w0);
      if s.Done? {
        RecordHistoryKeeps(site, m, s.w, t.env, s.value, Now(w0, t.env));
      }
    }
  }

  predicate AllAllowed(site: Site, m: Mode, w: World, turns: seq<Turn>)
    decreases |turns|
  {
    turns != [] ==> Allowed(site, m, w, turns[0]) && AllAllowed(site, m, After(site, w, turns[0]), turns[1..])
  }

  /** The inductive invariant over every sequence of runs, pauses and moved worktrees. */
  lemma {:induction false} EveryRunKeeps(site: Site, m: Mode, w: World, turns: seq<Turn>)
    requires m.Valid() && !m.hold.Pending() && Inv(site, m, w) && AllAllowed(site, m, w, turns)
    ensures Inv(site, m, AfterAll(site, w, turns))
    decreases |turns|
  {
    if turns != [] {
      TurnKeeps(site, m, w, turns[0]);
      EveryRunKeeps(site, m, After(site, w, turns[0]), turns[1..]);
    }
  }
}
