/** The pre-flight gate cannot block for ever: the counter rises with every blocked run, whatever happens to the
    revert it starts and whatever happens between, until the gate is passed or the system is DEGRADED. */
module Gating {
  import opened Records
  import opened Stacks
  import opened Protocol
  import opened Reverts
  import opened Convergence

  /** The first calls of a run that reaches the gate: load, fetch, discover, snapshot, and the save that counts the
      block. */
  const COUNTING_SAVE := 4

  /** The snapshot among them. */
  const GATE := 3

  /** A run that reaches the gate, finds the live stack unhealthy, and saves that. Nothing is asked of what follows. */
  ghost predicate Blocks(w: World, env: Env) {
    && (forall t :: 0 <= t <= COUNTING_SAVE ==> env.reply(t) == Ok)
    && !env.sound(GATE)
    && Awake(w.disk, env) && w.disk.lastResult != Degraded && !w.disk.Pending()
    && w.tree != NO_COMMIT && env.branch != NO_COMMIT && !w.disk.IsKnownBad(env.branch)
    && (if w.tree == env.branch then Drifted(w.disk, w.tree)
        else !env.windowClosed && (w.disk.lastHealthy == NO_COMMIT || env.relevant))
  }

  /** Given up, or one more block on the record. */
  predicate OneMore(s: State, s': State) {
    s'.lastResult == Degraded || s'.preflightBlocks == s.preflightBlocks + 1 <= 3
  }

  /** The counting, or degrading, save is all that must succeed. */
  lemma CountBlockCounts(site: Site, w: World, env: Env, r: Result, previous: seq<Stack>)
    requires env.reply(w.tick) == Ok
    ensures OneMore(w.mem, CountBlock(site, env, w, r, previous).w.disk)
  {
    hide DoRevert, LastN, Without;
    if w.mem.preflightBlocks < MAX_PREFLIGHT_BLOCKS {
      var w1 := SaveNext(w, env, w.mem.(preflightBlocks := w.mem.preflightBlocks + 1)).w;
      RevertWrites(site, env, w1, previous, NO_COMMIT);
    }
  }

  lemma GateBlocks(site: Site, w: World, env: Env, opts: Options, r: Result)
    requires (forall t :: w.tick <= t <= w.tick + 2 ==> env.reply(t) == Ok) && !env.sound(w.tick + 1) && !opts.dryRun
        && !opts.force
    ensures OneMore(w.mem, Gate(site, env, opts, w, r).w.disk)
  {
    hide CountBlock, PassGate, RecordOutcome;
    var s1 := Discover(site, env, w);
    CountBlockCounts(site, Judge(s1.w, env).w, env, r, s1.value.1);
  }

  /** One blocked run. */
  lemma BlockedRun(site: Site, w: World, env: Env)
    requires Blocks(w, env)
    ensures OneMore(w.disk, After(site, w, Attempt(Options(false, false), env)).disk)
  {
    hide Gate, RecordHistory;
    var opts := Options(false, false);
    var w0 := Begin(w);
    var w1 := Ask(w0, env).w.(mem := w.disk, loaded := w.disk);
    var w2 := Fetch(w1, env).w;
    var r := BLANK.(changed := true, oldCommit := w.tree, newCommit := env.branch, files := if w.tree != env.branch
        then env.diff else []);
    GateBlocks(site, w2, env, opts, r);
    var s := ReconcileLocked(site, env, opts, w0);
    if s.Done? {
      HistoryWrites(s.w, env, s.value, Now(w0, env));
    }
  }

  /** An unforced turn on which the gate, if it is reached, does not find the live stack healthy: with nothing pending,
      or with the revert of a blocked run to finish. Anything else about it may go any way. */
  predicate Unpassed(w: World, t: Turn) {
    t.Attempt? ==>
      && !t.opts.force
      && (if w.disk.Pending() then w.disk.pendingCommit == NO_COMMIT else !t.env.sound(GATE))
  }

  /** The counter has not gone down, and by at most one up. */
  predicate NoLess(s: State, s': State) {
    s.preflightBlocks <= s'.preflightBlocks <= s.preflightBlocks + 1
    && (s'.preflightBlocks <= 3 || s'.preflightBlocks == s.preflightBlocks)
  }

  lemma ResumedKeepsBlocks(site: Site, w: World, env: Env, found: seq<Stack>)
    requires w.mem == w.disk
    ensures Resumed(site, env, w, NO_COMMIT, NO_COMMIT, found, false).w.disk.preflightBlocks == w.disk.preflightBlocks
  {
    hide DoRevert;
    RevertWrites(site, env, w, Restrict(found, w.mem.pendingStacks), NO_COMMIT);
  }

  /** Recovery of such a revert, in any environment, leaves the counter alone. */
  lemma RecoveryKeepsBlocks(site: Site, w: World, env: Env, opts: Options)
    requires w.mem == w.disk && w.mem.Pending() && w.mem.pendingCommit == NO_COMMIT && !opts.force
    ensures RecoverFromCrash(site, env, opts, w).w.disk.preflightBlocks == w.disk.preflightBlocks
  {
    hide Resumed;
    DegradeWrites(w, env, NO_COMMIT, NO_COMMIT);
    var s1 := Discover(site, env, w);
    if s1.Done? {
      var s3 := SaveNext(s1.w, env, AttemptOf(s1.w.mem));
      if s3.Done? && s3.value {
        ResumedKeepsBlocks(site, s3.w, env, s1.value.1);
      }
    }
  }

  lemma OutcomeKeepsBlocks(w: World, env: Env, verdict: Verdict, commit: Commit)
    requires w.mem.preflightBlocks == w.disk.preflightBlocks
    ensures RecordOutcome(w, env, verdict, commit).w.disk.preflightBlocks == w.disk.preflightBlocks
  {
  }

  lemma AdvanceKeepsBlocks(w: World, env: Env, r: Result)
    requires w.mem.preflightBlocks == w.disk.preflightBlocks
    ensures AdvanceCheckout(w, env, r).w.disk.preflightBlocks == w.disk.preflightBlocks
  {
    hide AbortBeforeUp;
    AbortKeepsBlocks(Checkout(w, env, r.newCommit).w, env, r);
  }

  lemma AbortKeepsBlocks(w: World, env: Env, r: Result)
    requires w.mem.preflightBlocks == w.disk.preflightBlocks
    ensures AbortBeforeUp(w, env, r).w.disk.preflightBlocks == w.disk.preflightBlocks
  {
    hide RecordOutcome;
    OutcomeKeepsBlocks(w, env, FailedApply, r.newCommit);
    OutcomeKeepsBlocks(Checkout(w, env, r.oldCommit).w, env, FailedApply, r.newCommit);
  }

  lemma CountBlockIsNoLess(site: Site, w: World, env: Env, r: Result, previous: seq<Stack>)
    requires w.mem == w.disk
    ensures NoLess(w.disk, CountBlock(site, env, w, r, previous).w.disk)
  {
    hide DoRevert, Degrade;
    DegradeWrites(w, env, NO_COMMIT, w.mem.lastHealthy);
    if w.mem.preflightBlocks < MAX_PREFLIGHT_BLOCKS {
      var w1 := SaveNext(w, env, w.mem.(preflightBlocks := w.mem.preflightBlocks + 1)).w;
      RevertWrites(site, env, w1, previous, NO_COMMIT);
    }
  }

  lemma GateIsNoLess(site: Site, w: World, env: Env, opts: Options, r: Result)
    requires w.mem == w.disk && !env.sound(w.tick + 1) && !opts.force
    ensures NoLess(w.disk, Gate(site, env, opts, w, r).w.disk)
  {
    hide CountBlock, PassGate, RecordOutcome;
    var s1 := Discover(site, env, w);
    var w2 := Judge(s1.w, env).w;
    var previous := if s1.Done? && s1.value.0.NoFault? then s1.value.1 else Deployed(s1.w.mem.lastHealthyStacks, []);
    OutcomeKeepsBlocks(w2, env, FailedPreflight, r.newCommit);
    CountBlockIsNoLess(site, w2, env, r, previous);
  }

  lemma NormalIsNoLess(site: Site, w: World, env: Env, opts: Options)
    requires w.mem == w.disk && w.tick == 1 && !env.sound(GATE) && !opts.force
    ensures NoLess(w.disk, RunNormal(site, env, opts, w).w.disk)
  {
    hide Gate, AdvanceCheckout, RecordOutcome;
    var s := Fetch(w, env);
    if s.Crashed? { return; }
    if s.value.FetchFailed? {
      OutcomeKeepsBlocks(s.w, env, FailedGit, NO_COMMIT);
      return;
    }
    var g := s.value;
    var r := BLANK.(changed := g.changed, oldCommit := g.head, newCommit := g.tip, files := if g.changed then env.diff
        else []);
    OutcomeKeepsBlocks(s.w, env, SkippedKnownBad, g.tip);
    AdvanceKeepsBlocks(s.w, env, r.(skipped := true));
    GateIsNoLess(site, s.w, env, opts, r.(changed := true));
  }

  /** No such turn lowers the counter, in any environment. */
  lemma UnpassedIsNoLess(site: Site, w: World, t: Turn)
    requires Unpassed(w, t)
    ensures NoLess(w.disk, After(site, w, t).disk)
    ensures w.disk.lastResult == Degraded ==> After(site, w, t).disk.lastResult == Degraded
  {
    hide RecoverFromCrash, RunNormal, RecordHistory;
    if t.Attempt? {
      var w0 := Begin(w);
      var w1 := Ask(w0, t.env).w.(mem := w.disk, loaded := w.disk);
      if w.disk.Pending() {
        RecoveryKeepsBlocks(site, w1, t.env, t.opts);
      } else {
        NormalIsNoLess(site, w1, t.env, t.opts);
      }
      var s := ReconcileLocked(site, t.env, t.opts, w0);
      if s.Done? {
        HistoryWrites(s.w, t.env, s.value, Now(w0, t.env));
      }
    }
  }

  ghost predicate IsBlocked(w: World, t: Turn) {
    t.Attempt? && t.opts == Options(false, false) && Blocks(w, t.env)
  }

  ghost predicate AllUnpassed(site: Site, w: World, turns: seq<Turn>)
    decreases |turns|
  {
    turns != [] ==> Unpassed(w, turns[0]) && AllUnpassed(site, After(site, w, turns[0]), turns[1..])
  }

  ghost function BlockedRuns(site: Site, w: World, turns: seq<Turn>): nat
    decreases |turns|
  {
    if turns == [] then 0
    else (if IsBlocked(w, turns[0]) then 1 else 0) + BlockedRuns(site, After(site, w, turns[0]), turns[1..])
  }

  /** The counter bounds every series of blocked runs until the gate is passed, whatever else happens between them and
      however their reverts fare: it counts each of them, so that at most three leave the system undegraded. */
  lemma {:induction false} BlockedRunsEnd(site: Site, w: World, turns: seq<Turn>)
    requires AllUnpassed(site, w, turns) && w.disk.preflightBlocks <= 3
    ensures var s := AfterAll(site, w, turns).disk;
      || s.lastResult == Degraded
      || w.disk.preflightBlocks + BlockedRuns(site, w, turns) <= s.preflightBlocks <= 3
    decreases |turns|
  {
    if turns != [] {
      hide After, Blocks;
      var w1 := After(site, w, turns[0]);
      UnpassedIsNoLess(site, w, turns[0]);
      if IsBlocked(w, turns[0]) {
        BlockedRun(site, w, turns[0].env);
      }
      if w1.disk.lastResult == Degraded {
        StaysDegraded(site, w1, turns[1..]);
      } else {
        BlockedRunsEnd(site, w1, turns[1..]);
      }
    }
  }

  lemma {:induction false} StaysDegraded(site: Site, w: World, turns: seq<Turn>)
    requires AllUnpassed(site, w, turns) && w.disk.lastResult == Degraded
    ensures AfterAll(site, w, turns).disk.lastResult == Degraded
    decreases |turns|
  {
    if turns != [] {
      UnpassedIsNoLess(site, w, turns[0]);
      hide After;
      StaysDegraded(site, After(site, w, turns[0]), turns[1..]);
    }
  }
}
