/** What a run leaves in the record about itself, and what a run without a failure achieves. */
module Reports {
  import opened Records
  import opened Stacks
  import opened Protocol
  import opened Reverts
  import opened Convergence
  import opened Limits
  import opened Growth
  import opened Outcomes

  /*** History ***/

  /** The run did something or failed, and the record speaks of it: an attempt no older than the run, and no refusal. */
  predicate Tells(s: State, r: Result, runStart: Instant) {
    (r.applied || r.reverted || r.degraded || r.failed) && runStart <= s.lastAttemptAt
        && s.lastResult != SkippedKnownBad
  }

  /** The later history is the earlier one with this entry at its end, folded into the last when that reports the same
      commit and result; the oldest beyond twenty are gone. */
  predicate EndsWith(h: seq<Deployment>, h': seq<Deployment>, at: Instant, commit: Commit, result: Verdict,
      back: Commit) {
    var n := |h|;
    var again := n > 0 && h[n - 1].commit == commit && h[n - 1].result == result;
    var whole := if again then h[..n - 1] + [Deployment(at, commit, result, back, h[n - 1].repeats + 1)]
                 else h + [Deployment(at, commit, result, back, 0)];
    h' == if |whole| <= 20 then whole else whole[|whole| - 20..]
  }

  lemma RecordEnds(s: State, at: Instant, commit: Commit, result: Verdict, back: Commit)
    ensures EndsWith(s.history, s.Record(Deployment(at, commit, result, back, 0)).history, at, commit, result, back)
  {
    var h := s.history;
    if h != [] && h[|h| - 1].commit == commit && h[|h| - 1].result == result {
      var d := Deployment(at, commit, result, back, h[|h| - 1].repeats + 1);
      assert h[|h| - 1 := d] == h[..|h| - 1] + [d];
    }
  }

  lemma HistoryTells(w: World, env: Env, r: Result, runStart: Instant)
    ensures var w' := RecordHistory(w, env, r, runStart).w;
      if Tells(w.disk, r, runStart) && env.reply(w.tick).Ok? && Lands(env, w.tick + 1) then
        EndsWith(w.disk.history, w'.disk.history, w.disk.lastAttemptAt, r.newCommit, w.disk.lastResult, r.rolledBackTo)
      else w'.disk == w.disk && w'.log == w.log
  {
    hide LastN, Extend, EndsWith;
    RecordEnds(w.disk, w.disk.lastAttemptAt, r.newCommit, w.disk.lastResult, r.rolledBackTo);
  }

  /** What a run does to the history: when it dies or was dry, nothing; when it tells of something, the second load
      succeeds and the save takes effect, one entry, with the attempt's time and result as the durable record has
      them, and the run's commit and rollback; and otherwise nothing. */
  lemma RunTells(site: Site, w: World, env: Env, opts: Options)
    ensures var s := ReconcileLocked(site, env, opts, Begin(w));
      var w' := After(site, w, Attempt(opts, env));
      if s.Done? && !opts.dryRun && Tells(s.w.disk, s.value, env.clock(0) + 1)
        && env.reply(s.w.tick).Ok? && Lands(env, s.w.tick + 1)
      then EndsWith(w.disk.history, w'.disk.history, w'.disk.lastAttemptAt, s.value.newCommit, w'.disk.lastResult,
                    s.value.rolledBackTo)
      else w'.disk.history == w.disk.history
  {
    hide ReconcileLocked, RecordHistory, EndsWith, Tells;
    RunGrows(site, env, opts, Begin(w));
    var s := ReconcileLocked(site, env, opts, Begin(w));
    if s.Done? {
      HistoryTells(s.w, env, s.value, env.clock(0) + 1);
      HistoryWrites(s.w, env, s.value, env.clock(0) + 1);
    }
  }

  /** A refused commit leaves no entry. */
  lemma RefusalIsUntold(site: Site, w: World, env: Env)
    requires !w.disk.Pending() && w.disk.IsKnownBad(env.branch) && !Unfetched(w.tree, env) && env.reply(0).Ok?
    requires w.disk.lastResult != Degraded
    ensures After(site, w, Attempt(Options(false, false), env)).disk.history == w.disk.history
  {
    hide RecordHistory, Gate, AdvanceCheckout, RecordOutcome;
    RunGrows(site, env, Options(false, false), Begin(w));
    var s := ReconcileLocked(site, env, Options(false, false), Begin(w));
    if s.Done? {
      SkipsAreNotRecorded(s.w, env, s.value, env.clock(0) + 1);
    }
  }

  /*** Verdicts ***/

  /** Only the verdict, the time of the attempt, its commit when there is one, and the history may differ. */
  predicate Notes(s: State, s': State, verdict: Verdict, commit: Commit, at: Instant) {
    s' == s.(lastResult := verdict, lastAttemptAt := at,
             lastAttempt := if commit == NO_COMMIT then s.lastAttempt else commit,
             history := s'.history)
  }

  lemma HistoryKeepsNotes(s: State, w: World, env: Env, r: Result, runStart: Instant, verdict: Verdict, commit: Commit,
                          at: Instant)
    requires Notes(s, w.disk, verdict, commit, at)
    ensures Notes(s, RecordHistory(w, env, r, runStart).w.disk, verdict, commit, at)
  {
    hide RecordHistory;
    HistoryWrites(w, env, r, runStart);
  }

  lemma OutcomeNotes(w: World, env: Env, verdict: Verdict, commit: Commit)
    requires w.mem == w.disk && Lands(env, w.tick)
    ensures Notes(w.disk, RecordOutcome(w, env, verdict, commit).w.disk, verdict, commit, Now(w, env))
  {
  }

  /** A failed fetch is noted as such. */
  lemma FetchFailureIsNoted(site: Site, w: World, env: Env, opts: Options)
    requires Smooth(env, 0, 1) && Awake(w.disk, env) && !w.disk.Pending()
        && (w.disk.lastResult != Degraded || opts.force)
    requires Unfetched(w.tree, env) && !env.reply(1).Crash? && !env.cancels(1) && Lands(env, 2)
    ensures Notes(w.disk, After(site, w, Attempt(opts, env)).disk, FailedGit, NO_COMMIT, env.clock(2) + 1)
  {
    hide RecordHistory, RecordOutcome, Gate, AdvanceCheckout, Notes, Lands;
    var w1 := Fetch(Opened(w, env), env).w;
    OutcomeNotes(w1, env, FailedGit, NO_COMMIT);
    var s := ReconcileLocked(site, env, opts, Begin(w));
    assert s.w == RecordOutcome(w1, env, FailedGit, NO_COMMIT).w;
    if s.Done? {
      HistoryKeepsNotes(w.disk, s.w, env, s.value, Now(Begin(w), env), FailedGit, NO_COMMIT, env.clock(2) + 1);
    }
  }

  /** A known-bad branch head that would otherwise be deployed is noted as refused. */
  lemma RefusalIsNoted(site: Site, w: World, env: Env, dryRun: bool)
    requires Smooth(env, 0, 2) && Awake(w.disk, env) && !w.disk.Pending() && w.disk.lastResult != Degraded
    requires w.tree != NO_COMMIT && w.disk.IsKnownBad(env.branch) && Lands(env, 2)
    requires w.tree == env.branch ==> Drifted(w.disk, w.tree)
    ensures Notes(w.disk, After(site, w, Attempt(Options(dryRun, false), env)).disk, SkippedKnownBad, env.branch,
                  env.clock(2) + 1)
  {
    hide RecordHistory, RecordOutcome, Gate, AdvanceCheckout, Notes, Lands;
    var w1 := Fetch(Opened(w, env), env).w;
    OutcomeNotes(w1, env, SkippedKnownBad, env.branch);
    var s := ReconcileLocked(site, env, Options(dryRun, false), Begin(w));
    assert s.w == RecordOutcome(w1, env, SkippedKnownBad, env.branch).w;
    if s.Done? {
      HistoryKeepsNotes(w.disk, s.w, env, s.value, Now(Begin(w), env), SkippedKnownBad, env.branch, env.clock(2) + 1);
    }
  }

  /** A failed snapshot is noted as a failed pre-flight check of the branch head. */
  lemma SnapshotFailureIsNoted(site: Site, w: World, env: Env, opts: Options)
    requires Smooth(env, 0, 3) && MayApply(w, env, opts.force)
    requires env.reply(3).Fail? && !env.cancels(3) && Lands(env, 4)
    ensures Notes(w.disk, After(site, w, Attempt(opts, env)).disk, FailedPreflight, env.branch, env.clock(4) + 1)
  {
    hide RecordHistory, RecordOutcome, Gate, AdvanceCheckout, Notes, Lands, Now;
    var w1 := Fetch(Opened(w, env), env).w;
    var r := BLANK.(changed := true, oldCommit := w.tree, newCommit := env.branch,
                    files := if w.tree != env.branch then env.diff else []);
    var s := ReconcileLocked(site, env, opts, Begin(w));
    assert s == Gate(site, env, opts, w1, r) by { GateIsReached(site, w, env, opts); }
    GateNotes(site, env, opts, w1, r);
    if s.Done? {
      HistoryKeepsNotes(w.disk, s.w, env, s.value, Now(Begin(w), env), FailedPreflight, env.branch, env.clock(4) + 1);
    }
  }

  lemma GateIsReached(site: Site, w: World, env: Env, opts: Options)
    requires Smooth(env, 0, 3) && MayApply(w, env, opts.force)
    ensures ReconcileLocked(site, env, opts, Begin(w))
      == Gate(site, env, opts, Fetch(Opened(w, env), env).w,
              BLANK.(changed := true, oldCommit := w.tree, newCommit := env.branch,
                     files := if w.tree != env.branch then env.diff else []))
  {
    hide Gate;
  }

  lemma GateNotes(site: Site, env: Env, opts: Options, w: World, r: Result)
    requires w.mem == w.disk && w.tick == 2 && !w.cancelled && Smooth(env, 2, 3)
    requires env.reply(3).Fail? && !env.cancels(3) && Lands(env, 4)
    ensures Notes(w.disk, Gate(site, env, opts, w, r).w.disk, FailedPreflight, r.newCommit, env.clock(4) + 1)
  {
    hide PreflightBlocked, PassGate, RecordOutcome, Notes, Lands;
    var w1 := Judge(Discover(site, env, w).w, env).w;
    OutcomeNotes(w1, env, FailedPreflight, r.newCommit);
  }

  /*** Runs without a failure ***/

  /** The commit is in the worktree, the rollback target and the last checkout, with nothing pending or held against
      it. */
  predicate IsDeployed(w: World, commit: Commit) {
    && w.tree == commit && w.disk.lastHealthy == commit && w.disk.lastCheckout == commit
    && !w.disk.Pending() && w.disk.lastResult == Success && !w.disk.IsKnownBad(commit)
  }

  lemma HistoryKeepsDeployed(w: World, env: Env, r: Result, runStart: Instant, commit: Commit)
    requires IsDeployed(w, commit)
    ensures IsDeployed(RecordHistory(w, env, r, runStart).w, commit)
  {
    hide RecordHistory;
    HistoryWrites(w, env, r, runStart);
    HistoryIsOnlySaves(w, env, r, runStart);
  }

  /** A worktree that has left the commit it should be at is deployed anew, from the branch head it is at. */
  lemma DriftIsRepaired(site: Site, w: World, env: Env, force: bool)
    requires Well(env) && Awake(w.disk, env) && !w.disk.Pending()
    requires (w.disk.lastResult != Degraded && !w.disk.IsKnownBad(env.branch)) || force
    requires w.tree == env.branch != if w.disk.lastCheckout != NO_COMMIT then w.disk.lastCheckout
        else w.disk.lastHealthy
    ensures IsDeployed(After(site, w, Attempt(Options(false, force), env)), env.branch)
  {
    hide ReconcileLocked, ApplyAndWatch, RecordHistory, Chosen, IsDeployed;
    var w', r, previous := NormalReachesApply(site, w, env, force);
    ApplyPromotes(site, env, w', r, previous, []);
    ResumedChoice(env, w'.mem, r, site.stacksAt(env.branch), []);
    WholeChoice(env, w'.mem, r, site.stacksAt(env.branch));
    var s := ReconcileLocked(site, env, Options(false, force), Begin(w));
    assert IsDeployed(s.w, env.branch) by { PromotedIsDeployed(s, env.branch); }
    HistoryKeepsDeployed(s.w, env, s.value, Now(Begin(w), env), env.branch);
  }

  lemma WholeChoice(env: Env, mem: State, r: Result, stacks: seq<Stack>)
    requires r.files == []
    ensures !Chosen(env, mem, r, stacks, []).1
  {
  }

  lemma PromotedIsDeployed(s: Step<Result>, commit: Commit)
    requires Promoted(s, commit)
    ensures IsDeployed(s.w, commit)
  {
  }

  /** A relevant change is deployed, or, when it touches no stack and one could not be weighed, checked out alone. */
  lemma ChangeIsDeployed(site: Site, w: World, env: Env, force: bool)
    requires Well(env) && Awake(w.disk, env) && !w.disk.Pending() && w.tree != NO_COMMIT
    requires (w.disk.lastResult != Degraded && !w.disk.IsKnownBad(env.branch)) || force
    requires w.tree != env.branch && (w.disk.lastHealthy == NO_COMMIT || env.relevant)
    ensures var w' := After(site, w, Attempt(Options(false, force), env));
      || IsDeployed(w', env.branch)
      || (&& w.disk.lastHealthy != NO_COMMIT && w'.tree == env.branch
          && w'.disk == w.disk.(preflightBlocks := 0, history := w'.disk.history)
          && (forall s :: s in site.stacksAt(env.branch) ==> env.diff != [] && env.weigh(s) != Touched)
          && exists s :: s in site.stacksAt(env.branch) && env.weigh(s) == Undetermined)
  {
    hide ReconcileLocked, ApplyAndWatch, RecordHistory, IsDeployed, Weighed, Restrict;
    var w', r, previous := NormalReachesApply(site, w, env, force);
    ApplyPromotes(site, env, w', r, previous, []);
    WeighedMeans(env, site.stacksAt(env.branch));
    var s := ReconcileLocked(site, env, Options(false, force), Begin(w));
    if Chosen(env, w'.mem, r, site.stacksAt(env.branch), []) == ([], true) {
      HistoryWrites(s.w, env, s.value, Now(Begin(w), env));
      HistoryIsOnlySaves(s.w, env, s.value, Now(Begin(w), env));
    } else {
      assert IsDeployed(s.w, env.branch) by { PromotedIsDeployed(s, env.branch); }
      HistoryKeepsDeployed(s.w, env, s.value, Now(Begin(w), env), env.branch);
    }
  }

  /** An irrelevant change is checked out and recorded as such, and the rollback target stays. */
  lemma IrrelevantIsCheckedOut(site: Site, w: World, env: Env, opts: Options)
    requires Well(env) && Awake(w.disk, env) && !w.disk.Pending() && w.tree != NO_COMMIT
    requires (w.disk.lastResult != Degraded && !w.disk.IsKnownBad(env.branch)) || opts.force
    requires w.tree != env.branch && w.disk.lastHealthy != NO_COMMIT && !env.relevant
    ensures var w' := After(site, w, Attempt(opts, env));
      && w'.tree == env.branch && w'.running == w.running
      && w'.disk == w.disk.(lastCheckout := env.branch, lastAttempt := env.branch,
                            lastAttemptAt := w'.disk.lastAttemptAt, lastResult := Success)
  {
    hide RecordHistory, AbortBeforeUp;
    var s := ReconcileLocked(site, env, opts, Begin(w));
    SkipsAreNotRecorded(s.w, env, s.value, Now(Begin(w), env));
  }

  /** With the worktree at the branch head and where it should be there is nothing to do. */
  lemma NothingToDo(site: Site, w: World, env: Env, opts: Options)
    requires env.reply(0).Ok? && env.reply(1).Ok? && !w.disk.Pending() && (w.disk.lastResult != Degraded || opts.force)
    requires w.tree == env.branch
    requires w.tree in {NO_COMMIT, if w.disk.lastCheckout != NO_COMMIT then w.disk.lastCheckout else w.disk.lastHealthy}
    ensures LeftAlone(w, After(site, w, Attempt(opts, env)))
  {
    hide RecordHistory;
    var s := ReconcileLocked(site, env, opts, Begin(w));
    SkipsAreNotRecorded(s.w, env, s.value, Now(Begin(w), env));
  }
}
