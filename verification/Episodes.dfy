/** A pending episode ends: how often recovery may try, and where a run leads once the environment is well. */
module Episodes {
  import opened Records
  import opened Stacks
  import opened Protocol
  import opened Safety
  import opened RevertSafety
  import opened ApplySafety
  import opened RunSafety
  import opened Reverts

  /** Any run that finds no superseding commit. */
  const PLAIN := ANY.(superseded := false)

  /** With no more attempts on record than there may be, the past owes nothing else. */
  lemma AnyIsPlain(site: Site, w: World)
    requires Inv(site, ANY, w) && w.disk.pendingAttempts <= MAX_RECOVERY_ATTEMPTS
    ensures Inv(site, PLAIN, w)
  {
    hide EventOk, EndOk, Witnessed;
  }

  /*** Bounded recovery ***/

  predicate Exhausted(site: Site, s: State, now: Instant) {
    s.pendingAttempts >= 3 || (s.pendingSince != 0 && now > s.pendingSince + 3 * (site.watchSeconds + 900))
  }

  /** What is left of a pending record once it is given up. */
  predicate GivenUp(s: State, s': State) {
    && s'.lastResult == Degraded && !s'.Pending()
    && SameTarget(s, s')
    && (s.pendingCommit != NO_COMMIT ==> s'.IsKnownBad(s.pendingCommit) && s'.lastAttempt == s.pendingCommit)
  }

  lemma DegradeGivesUp(w: World, env: Env)
    ensures var s := Degrade(w, env, w.mem.pendingCommit, NO_COMMIT);
      && s.w.running == w.running && s.w.tree == w.tree
      && (forall i :: |w.log| <= i < |s.w.log| ==> s.w.log[i].Saved?)
      && (s.w.disk == w.disk || GivenUp(w.mem, s.w.disk))
      && s.w.tick == w.tick + 1
      && (s.Done? ==> s.value.degraded)
      && (env.reply(w.tick).Ok? ==> GivenUp(w.mem, s.w.disk))
  {
    hide LastN, Without;
  }

  /** The call at which recovery looks at the clock: after the fetch, which a revert in progress does without. */
  function LimitCall(w: World): nat {
    if w.mem.RevertInProgress() then w.tick else w.tick + 1
  }

  /** A run that finds the attempts used up or the time spent touches nothing, and gives up unless its one save fails.
      */
  lemma ExhaustedRecoveryDegrades(site: Site, w: World, env: Env, opts: Options)
    requires w.mem.Pending() && !opts.force && !opts.dryRun
    requires !Finds(w.mem, w.tree, env, w.tick, false)
    requires Exhausted(site, w.mem, env.clock(LimitCall(w)) + 1)
    ensures var s := RecoverFromCrash(site, env, opts, w);
      && s.w.running == w.running && s.w.tree == w.tree
      && (forall i :: |w.log| <= i < |s.w.log| ==> s.w.log[i].Saved?)
      && (s.w.disk == w.disk || GivenUp(w.mem, s.w.disk))
      && (s.Done? ==>
            && s.value.degraded && s.w.tick == LimitCall(w) + 1
            && (env.reply(LimitCall(w)).Ok? ==> GivenUp(w.mem, s.w.disk)))
  {
    hide Resume, Degrade, GivenUp;
    var s := if w.mem.RevertInProgress() then Done(w, NO_COMMIT)
        else SupersedingCommit(w, env, false, w.mem.pendingCommit);
    if s.Done? {
      DegradeGivesUp(s.w, env);
    }
  }

  lemma RecoverIsOneAttempt(site: Site, w: World, env: Env, opts: Options)
    requires Live(site, PLAIN, w) && w.mem == w.disk == w.loaded && w.mem.Pending() && !opts.force
    requires !Finds(w.mem, w.tree, env, w.tick, false)
    ensures OneAttempt(w.disk, RecoverFromCrash(site, env, opts, w).w, |w.log|)
  {
    hide Resume, Degrade, Chronicle, Kept, Marked, Open;
    if opts.dryRun { return; }
    AskKeeps(site, PLAIN, w, env);
    var s := if w.mem.RevertInProgress() then Done(w, NO_COMMIT)
             else SupersedingCommit(w, env, false, w.mem.pendingCommit);
    if s.Done? && s.value == NO_COMMIT && Exhausted(site, s.w.mem, Now(s.w, env)) {
      DegradeGivesUp(s.w, env);
    } else if s.Done? {
      ResumeKeeps(site, PLAIN, s.w, env, s.value);
    }
  }

  /** With the attempts used up, a run gives up or leaves the record as it is, and touches nothing. */
  lemma ExhaustedIsNoAttempt(site: Site, w: World, env: Env, opts: Options)
    requires w.mem == w.disk && w.mem.Pending() && w.mem.pendingAttempts >= MAX_RECOVERY_ATTEMPTS && !opts.force
    requires !Finds(w.mem, w.tree, env, w.tick, false)
    ensures OneAttempt(w.disk, RecoverFromCrash(site, env, opts, w).w, |w.log|)
  {
    hide RecoverFromCrash;
    if opts.dryRun {
      assert RecoverFromCrash(site, env, opts, w).w == w by { DryRecoveryIsStill(site, w, env, opts); }
    } else {
      ExhaustedRecoveryDegrades(site, w, env, opts);
    }
  }

  lemma DryRecoveryIsStill(site: Site, w: World, env: Env, opts: Options)
    requires opts.dryRun
    ensures RecoverFromCrash(site, env, opts, w).w == w
  {
  }

  /** One run of a pending episode, whatever went before: it counts itself at most once, and touches Docker only once
      it is counted and within its limit. */
  lemma RunIsOneAttempt(site: Site, w: World, env: Env, opts: Options)
    requires Inv(site, ANY, w) && w.disk.Pending() && !opts.force
    requires !Finds(w.disk, w.tree, env, FETCH, false)
    ensures OneAttempt(w.disk, After(site, w, Attempt(opts, env)), |w.log|)
  {
    var w0 := Begin(w);
    var s0 := Ask(w0, env);
    var w1 := s0.w.(mem := s0.w.disk, loaded := s0.w.disk);
    hide RecoverFromCrash, RunNormal, Inv, Live, Finds, RecordHistory;
    if s0.Done? && s0.value.NoFault? && !w1.mem.Paused(Now(w1, env)) && w.disk.lastResult != Degraded {
      if w.disk.pendingAttempts < MAX_RECOVERY_ATTEMPTS {
        AnyIsPlain(site, w);
        InvElsewhere(site, PLAIN, w, w1);
        LoadedIsLive(site, PLAIN, w1);
        RecoverIsOneAttempt(site, w1, env, opts);
      } else {
        ExhaustedIsNoAttempt(site, w1, env, opts);
      }
    }
    var s := ReconcileLocked(site, env, opts, w0);
    assert OneAttempt(w.disk, s.w, |w.log|);
    hide ReconcileLocked, OneAttempt;
    if s.Done? && !opts.dryRun {
      HistoryIsNoAttempt(w.disk, s.w, env, s.value, Now(w0, env), |w.log|);
    }
  }

  lemma HistoryIsNoAttempt(s: State, w: World, env: Env, r: Result, runStart: Instant, mark: nat)
    requires OneAttempt(s, w, mark)
    ensures OneAttempt(s, RecordHistory(w, env, r, runStart).w, mark)
  {
    hide LastN, Extend;
  }

  predicate Touched(w: World, w': World) {
    exists i :: |w.log| <= i < |w'.log| && TouchesDocker(w'.log[i])
  }

  /** How many of the turns touch Docker. */
  function TouchingRuns(site: Site, w: World, turns: seq<Turn>): nat
    decreases |turns|
  {
    if turns == [] then 0
    else
      var w' := After(site, w, turns[0]);
      (if Touched(w, w') then 1 else 0) + TouchingRuns(site, w', turns[1..])
  }

  /** A turn that is not forced and finds no superseding commit. */
  predicate Plain(w: World, t: Turn) {
    t.Attempt? ==> !t.opts.force && !Finds(w.disk, w.tree, t.env, FETCH, false)
  }

  /** Plain turns taken while the record stays pending. */
  predicate Episode(site: Site, w: World, turns: seq<Turn>)
    decreases |turns|
  {
    turns != [] ==> w.disk.Pending() && Plain(w, turns[0]) && Episode(site, After(site, w, turns[0]), turns[1..])
  }

  lemma TurnIsOneAttempt(site: Site, w: World, t: Turn)
    requires Inv(site, ANY, w) && w.disk.Pending() && Plain(w, t)
    ensures OneAttempt(w.disk, After(site, w, t), |w.log|)
  {
    hide Inv, Finds;
    if t.Attempt? {
      hide After;
      RunIsOneAttempt(site, w, t.env, t.opts);
    }
  }

  /** The attempts a pending record has left. */
  function AttemptsLeft(s: State): nat {
    if s.pendingAttempts < 3 then 3 - s.pendingAttempts else 0
  }

  /** Bounded recovery: however an episode began and however long it lasts, its commit and its clock never move, each
      run that touches Docker uses up an attempt, and the counter does not go beyond its limit. */
  lemma {:induction false} BoundedRecovery(site: Site, w: World, turns: seq<Turn>)
    requires Inv(site, ANY, w) && w.disk.Pending() && Episode(site, w, turns)
    ensures TouchingRuns(site, w, turns) <= AttemptsLeft(w.disk)
    ensures var w' := AfterAll(site, w, turns);
      w'.disk.Pending() ==>
        && w'.disk.pendingCommit == w.disk.pendingCommit && w'.disk.pendingSince == w.disk.pendingSince
        && w.disk.pendingAttempts + TouchingRuns(site, w, turns) <= w'.disk.pendingAttempts
        && (w'.disk.pendingAttempts <= 3 || w'.disk.pendingAttempts == w.disk.pendingAttempts)
    decreases |turns|
  {
    hide After, Inv, Finds;
    if turns != [] {
      var w1 := After(site, w, turns[0]);
      TurnIsOneAttempt(site, w, turns[0]);
      AnyTurnKeeps(site, w, turns[0]);
      if w.disk.pendingAttempts >= MAX_RECOVERY_ATTEMPTS {
        OverLimitStays(site, w, turns[0]);
      }
      if w1.disk.Pending() {
        BoundedRecovery(site, w1, turns[1..]);
      } else {
        assert turns[1..] == [];
      }
    }
  }

  lemma AnyTurnKeeps(site: Site, w: World, t: Turn)
    requires Inv(site, ANY, w)
    ensures Inv(site, ANY, After(site, w, t))
  {
    hide After, Inv;
    TurnKeeps(site, ANY, w, t);
  }

  /** At or over the limit the counter stands still. */
  lemma OverLimitStays(site: Site, w: World, t: Turn)
    requires w.disk.Pending() && Plain(w, t) && w.disk.pendingAttempts >= MAX_RECOVERY_ATTEMPTS
    ensures var s := After(site, w, t).disk; s.Pending() ==> s.pendingAttempts == w.disk.pendingAttempts
  {
    if t.Attempt? {
      var w0 := Begin(w);
      var w1 := Ask(w0, t.env).w.(mem := w.disk, loaded := w.disk);
      hide RecoverFromCrash, RunNormal, RecordHistory, Finds;
      if !t.opts.dryRun {
        ExhaustedRecoveryDegrades(site, w1, t.env, t.opts);
      } else {
        DryRecoveryIsStill(site, w1, t.env, t.opts);
      }
      var s := ReconcileLocked(site, t.env, t.opts, w0);
      if s.Done? {
        HistoryWrites(s.w, t.env, s.value, Now(w0, t.env));
      }
    }
  }
}
