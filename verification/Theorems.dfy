/** What the protocol promises, read off the invariant: statements over every sequence of runs from any state that
    satisfies it, with a crash allowed at any call and any save allowed to fail. A fresh installation satisfies it. */
module Theorems {
  import opened Records
  import opened Stacks
  import opened Protocol
  import opened Safety
  import opened RunSafety

  /** Anything but an attempt on the rollback target itself. */
  const ELSEWHERE := ANY.(retried := false)

  /** What runs is accounted for: a forced run leaves DEGRADED only when the record names all that runs, and a
      superseding commit has the pending stacks that are not healthy ones. */
  const COUNTED := ANY.(counts := true)

  /** What an apply has touched is accounted for: a forced run leaves DEGRADED only when the record still names all of
      it, and a superseding commit has all pending stacks. */
  const TRACED := ANY.(traces := true)

  /** No superseding commit at all, and otherwise as before. */
  const STEADY := TRACED.(superseded := false)

  /** Unforced runs, from event `since` on. */
  function Unforced(since: nat): Mode {
    ANY.(forced := false, revived := false, since := since)
  }

  lemma {:induction false} AnythingGoes(site: Site, w: World, turns: seq<Turn>)
    ensures AllAllowed(site, ANY, w, turns)
    decreases |turns|
  {
    if turns != [] {
      hide After;
      AnythingGoes(site, After(site, w, turns[0]), turns[1..]);
    }
  }

  predicate NoForce(turns: seq<Turn>) {
    forall i :: 0 <= i < |turns| && turns[i].Attempt? ==> !turns[i].opts.force
  }

  lemma {:induction false} UnforcedGoes(site: Site, w: World, turns: seq<Turn>, since: nat)
    requires NoForce(turns)
    ensures AllAllowed(site, Unforced(since), w, turns)
    decreases |turns|
  {
    if turns != [] {
      hide After;
      UnforcedGoes(site, After(site, w, turns[0]), turns[1..], since);
    }
  }

  /** The invariant after any runs whatever. */
  lemma EveryRunKeepsAny(site: Site, w: World, turns: seq<Turn>)
    requires Inv(site, ANY, w)
    ensures Inv(site, ANY, AfterAll(site, w, turns))
  {
    AnythingGoes(site, w, turns);
    EveryRunKeeps(site, ANY, w, turns);
  }

  lemma FreshIsInvariant(site: Site, m: Mode, tree: Commit)
    requires !m.hold.Pending()
    ensures Inv(site, m, Fresh(tree))
  {
    assert SetOf([]) == {};
  }

  /** The past owes nothing: a guarded record is all that unforced runs need to start from. */
  lemma GuardedIsUnforced(site: Site, w: World)
    requires Inv(site, ANY, w) && Guarded(w.disk) && w.disk.lastResult != Degraded
    ensures Inv(site, Unforced(|w.log|), w)
  {
    hide EventOk, EndOk, Witnessed;
  }

  /** Known-bad safety: in any unforced runs, whatever went before, no commit the run loaded as known-bad is brought up,
      except as rollback target, provided a pending commit that is known-bad to begin with is being reverted. */
  lemma KnownBadIsNeverApplied(site: Site, w: World, turns: seq<Turn>, i: nat)
    requires Inv(site, ANY, w) && (Guarded(w.disk) || w.disk.lastResult == Degraded) && NoForce(turns)
    requires var log := AfterAll(site, w, turns).log; |w.log| <= i < |log| && log[i].Upped?
    ensures var e := AfterAll(site, w, turns).log[i]; e.loaded.IsKnownBad(e.tree) ==> e.tree == e.durable.lastHealthy
  {
    hide AfterAll;
    if w.disk.lastResult == Degraded {
      DegradedIsAbsorbing(site, w, turns);
    } else {
      GuardedIsUnforced(site, w);
      UnforcedGoes(site, w, turns, |w.log|);
      EveryRunKeeps(site, Unforced(|w.log|), w, turns);
    }
  }

  /** Write-ahead: any project brought up from a commit other than the rollback target is already named, with that
      commit, by the durable pending record. */
  lemma EveryApplyIsAnnounced(site: Site, w: World, turns: seq<Turn>, i: nat)
    requires Inv(site, ANY, w)
    requires var log := AfterAll(site, w, turns).log; i < |log| && log[i].Upped?
    ensures var e := AfterAll(site, w, turns).log[i];
      e.tree != e.durable.lastHealthy ==>
        e.durable.Pending() && e.durable.pendingCommit == e.tree && e.name in e.durable.pendingStacks
  {
    hide AfterAll;
    EveryRunKeepsAny(site, w, turns);
  }

  /** No orphans: every project that may run is one of the healthy stacks or of the pending ones. */
  lemma NoOrphans(site: Site, w: World, turns: seq<Turn>)
    requires Inv(site, COUNTED, w) && AllAllowed(site, COUNTED, w, turns)
    ensures var w' := AfterAll(site, w, turns);
      w'.disk.lastResult == Degraded ||
      (&& w'.running <= SetOf(w'.disk.lastHealthyStacks) + SetOf(w'.disk.pendingStacks)
       && (!w'.disk.Pending() ==> w'.running <= SetOf(w'.disk.lastHealthyStacks)))
  {
    hide AfterAll, Chronicle;
    EveryRunKeeps(site, COUNTED, w, turns);
    assert SetOf([]) == {};
  }

  /** The rollback target is never known-bad, as long as no run attempts the target itself. */
  lemma TargetIsNeverKnownBad(site: Site, w: World, turns: seq<Turn>)
    requires Inv(site, ELSEWHERE, w) && AllAllowed(site, ELSEWHERE, w, turns)
    ensures var s := AfterAll(site, w, turns).disk; !s.IsKnownBad(s.lastHealthy)
  {
    hide AfterAll, Chronicle;
    EveryRunKeeps(site, ELSEWHERE, w, turns);
  }

  /** An Up of this project from a commit that was not the rollback target. */
  predicate Applied(e: Event, n: Name, c: Commit) {
    e.Upped? && e.name == n && e.tree == c != e.durable.lastHealthy
  }

  /** A successful Down of the project, or a successful Up of it at the rollback target. */
  predicate Undone(e: Event, n: Name) {
    (e.Downed? && e.name == n && e.ok) || (e.Upped? && e.name == n && e.ok && e.tree == e.durable.lastHealthy)
  }

  predicate BecameTarget(e: Event, c: Commit) {
    e.Saved? && e.after.lastHealthy == c != e.before.lastHealthy
  }

  /** Event j made a commit the rollback target that the project was brought up from between i and j. */
  predicate PromotedFrom(log: seq<Event>, i: nat, j: nat, n: Name)
    requires j < |log|
  {
    exists k :: i <= k < j && log[k].Upped? && Applied(log[k], n, log[k].tree) && BecameTarget(log[j], log[k].tree)
  }

  /** After event i the project was torn down or brought up at the rollback target, or a commit it was brought up from
      in the meantime became the rollback target itself. */
  predicate SettledSince(log: seq<Event>, i: nat, n: Name) {
    exists j :: i < j < |log| &&
      (Undone(log[j], n) || PromotedFrom(log, i, j, n))
  }

  /** A project the marks still hold was last brought up from the commit they hold it with. */
  predicate HeldSince(log: seq<Event>, i: nat, n: Name) {
    var d := Marked(log);
    n in d && exists k :: i <= k < |log| && Applied(log[k], n, d[n])
  }

  lemma SettledStays(log: seq<Event>, e: Event, i: nat, n: Name)
    requires SettledSince(log, i, n)
    ensures SettledSince(log + [e], i, n)
  {
    hide Undone, Applied, BecameTarget;
    var j :| i < j < |log| &&
      (Undone(log[j], n) || PromotedFrom(log, i, j, n));
    var more := log + [e];
    assert more[j] == log[j];
    if !Undone(log[j], n) {
      var k :| i <= k < j && log[k].Upped? && Applied(log[k], n, log[k].tree) && BecameTarget(log[j], log[k].tree);
      assert more[k] == log[k];
    }
  }

  /** The marks forget nothing: every applying Up in a log is still held by them or has been settled since. */
  lemma {:induction false} MarksForgetNothing(log: seq<Event>, i: nat, n: Name)
    requires i < |log| && log[i].Upped? && Applied(log[i], n, log[i].tree)
    ensures HeldSince(log, i, n) || SettledSince(log, i, n)
    decreases |log|
  {
    var last := |log| - 1;
    var init, e := log[..last], log[last];
    assert log == init + [e];
    if i < last {
      MarksForgetNothing(init, i, n);
      if SettledSince(init, i, n) {
        SettledStays(init, e, i, n);
      } else {
        var k :| i <= k < |init| && Applied(init[k], n, Marked(init)[n]);
        assert log[k] == init[k];
        assert Applied(log[k], n, log[k].tree) && log[k].tree == Marked(init)[n];
        assert n in Marked(log) && Marked(log)[n] == Marked(init)[n] ==> HeldSince(log, i, n);
        assert e.Upped? && Applied(e, n, e.tree) ==> HeldSince(log, i, n);
        assert Undone(log[last], n) || BecameTarget(log[last], log[k].tree) ==> SettledSince(log, i, n);
      }
    } else {
      assert Applied(log[last], n, Marked(log)[n]);
    }
  }

  /** Nothing after event k bears on a project that the commit has touched. */
  predicate Standing(log: seq<Event>, k: nat, n: Name, c: Commit) {
    && k < |log| && Applied(log[k], n, c)
    && forall j :: k < j < |log| ==>
      !Undone(log[j], n) && !BecameTarget(log[j], c) && (log[j].Upped? ==> !Applied(log[j], n, log[j].tree))
  }

  /** A mark stands for an Up of an apply that nothing has settled since. */
  lemma {:induction false} MarkStandsFor(log: seq<Event>, n: Name) returns (k: nat)
    requires n in Marked(log)
    ensures Standing(log, k, n, Marked(log)[n]) && !SettledSince(log, k, n)
    decreases |log|
  {
    var last := |log| - 1;
    var init, e := log[..last], log[last];
    assert log == init + [e];
    if e.Upped? && Applied(e, n, e.tree) {
      k := last;
    } else {
      k := MarkStandsFor(init, n);
      assert log[k] == init[k] && forall j :: k < j < last ==> log[j] == init[j];
    }
  }

  /** Revert conservation: whenever nothing is pending, every project that any apply has ever brought up from a commit
      other than the rollback target has since been brought up at the target, torn down, or promoted with such a
      commit. */
  lemma RevertConserves(site: Site, w: World, turns: seq<Turn>, i: nat)
    requires Inv(site, TRACED, w) && AllAllowed(site, TRACED, w, turns)
    requires var w' := AfterAll(site, w, turns); i < |w'.log| && w'.disk.lastResult != Degraded && !w'.disk.Pending()
    ensures var log := AfterAll(site, w, turns).log;
      log[i].Upped? && log[i].tree != log[i].durable.lastHealthy ==> SettledSince(log, i, log[i].name)
  {
    hide AfterAll, Chronicle;
    EveryRunKeeps(site, TRACED, w, turns);
    assert SetOf([]) == {};
    var log := AfterAll(site, w, turns).log;
    if log[i].Upped? && log[i].tree != log[i].durable.lastHealthy {
      assert Marked(log) == map[];
      MarksForgetNothing(log, i, log[i].name);
    }
  }

  /** After a crash anywhere between an Up of an apply and the save that settles it, the record is pending with the
      stack, and, short of superseding commits, with the commit it was last brought up from; the next unpaused run
      takes the recovery path. */
  lemma CrashLeadsToRecovery(site: Site, m: Mode, w: World, turns: seq<Turn>, env: Env, opts: Options, i: nat)
    requires (m == TRACED || m == STEADY) && Inv(site, m, w) && AllAllowed(site, m, w, turns)
    requires var w' := AfterAll(site, w, turns);
      && i < |w'.log| && w'.log[i].Upped? && w'.log[i].tree != w'.log[i].durable.lastHealthy
      && !SettledSince(w'.log, i, w'.log[i].name) && w'.disk.lastResult != Degraded
    ensures var w' := AfterAll(site, w, turns); var n := w'.log[i].name;
      && w'.disk.Pending() && n in w'.disk.pendingStacks
      && (m == STEADY ==> exists k :: i <= k < |w'.log| && Applied(w'.log[k], n, w'.disk.pendingCommit))
      && var w0 := Begin(w');
         var w1 := Tick(w0, env).(mem := w'.disk, loaded := w'.disk);
         (env.reply(0) == Ok && !w'.disk.Paused(Now(w1, env)) ==>
            ReconcileLocked(site, env, opts, w0) == RecoverFromCrash(site, env, opts, w1))
  {
    hide AfterAll, RecoverFromCrash, RunNormal, Chronicle;
    EveryRunKeeps(site, m, w, turns);
    var w' := AfterAll(site, w, turns);
    MarksForgetNothing(w'.log, i, w'.log[i].name);
    hide Marked, Open;
  }

  predicate Applies(e: Event) {
    e.Upped? && e.tree != e.durable.lastHealthy
  }

  /** Event i is an Up of an apply, and no later save leaves nothing pending. */
  predicate UnendedAt(log: seq<Event>, i: nat)
    requires i < |log|
  {
    Applies(log[i]) && forall j :: i < j < |log| && log[j].Saved? ==> log[j].after.Pending()
  }

  lemma UnendedStep(log: seq<Event>, e: Event, i: nat)
    requires i < |log|
    ensures UnendedAt(log + [e], i) <==> UnendedAt(log, i) && (e.Saved? ==> e.after.Pending())
  {
    var more := log + [e];
    assert more[|log|] == e;
    assert forall j :: 0 <= j < |log| ==> more[j] == log[j];
  }

  /** An apply is under way exactly when some Up of it has not been followed by a save that leaves nothing pending. */
  lemma {:induction false} OpenMeans(log: seq<Event>)
    ensures Open(log) <==> exists i :: 0 <= i < |log| && UnendedAt(log, i)
  {
    if log != [] {
      var n := |log| - 1;
      var init, e := log[..n], log[n];
      assert log == init + [e];
      OpenMeans(init);
      LogSteps(init, e);
      assert UnendedAt(log, n) <==> Applies(e);
      forall i | 0 <= i < n ensures UnendedAt(log, i) <==> UnendedAt(init, i) && (e.Saved? ==> e.after.Pending()) {
        UnendedStep(init, e, i);
      }
      hide Open, UnendedAt;
      assert (exists i :: 0 <= i < |log| && UnendedAt(log, i)) <==>
          UnendedAt(log, n) || exists i :: 0 <= i < n && UnendedAt(log, i);
    }
  }

  /** Write-ahead recovery, whatever the runs: while an apply is under way the durable record is pending, and the next
      unpaused run that DEGRADED does not stop takes the recovery path. */
  lemma OpenApplyIsRecovered(site: Site, w: World, turns: seq<Turn>, env: Env, opts: Options)
    requires Inv(site, ANY, w)
    requires var w' := AfterAll(site, w, turns); Open(w'.log) && (w'.disk.lastResult != Degraded || opts.force)
    ensures var w' := AfterAll(site, w, turns);
      && w'.disk.Pending()
      && var w0 := Begin(w');
         var w1 := Tick(w0, env).(mem := w'.disk, loaded := w'.disk);
         (env.reply(0) == Ok && !w'.disk.Paused(Now(w1, env)) ==>
            ReconcileLocked(site, env, opts, w0) == RecoverFromCrash(site, env, opts, w1))
  {
    hide AfterAll, RecoverFromCrash, RunNormal, Chronicle, Open, Marked;
    EveryRunKeepsAny(site, w, turns);
  }

  /** Only one kind of save ends an apply, whatever the runs: the one that gives up, promotes, or finishes the revert
      with every pending stack up and healthy at the target or torn down. */
  lemma AppliesEndSettled(site: Site, w: World, turns: seq<Turn>, i: nat)
    requires Inv(site, ANY, w)
    requires var log := AfterAll(site, w, turns).log;
        i < |log| && log[i].Saved? && Open(log[..i]) && !log[i].after.Pending()
    ensures var e := AfterAll(site, w, turns).log[i]; Settles(site, e.before, e.after, e.tree, e.seen)
  {
    hide AfterAll, Open, Marked, Settles;
    EveryRunKeepsAny(site, w, turns);
  }

  /** Rollback-target legitimacy: the target of every reachable state was recorded by a save made with that commit in
      the worktree, those of its stacks that had to come up being up and healthy, and the former ones torn down; and
      the healthy stack set is exactly the one discovered at it. */
  lemma RollbackTargetIsLegitimate(site: Site, w: World, turns: seq<Turn>)
    requires Inv(site, ANY, w)
    requires AfterAll(site, w, turns).disk.lastHealthy != NO_COMMIT
    ensures var w' := AfterAll(site, w, turns);
      && w'.disk.lastHealthyStacks == Names(site.stacksAt(w'.disk.lastHealthy))
      && exists e :: e in w'.log && e.Saved? && SameTarget(w'.disk, e.after) &&
          Legitimate(site, e.before, e.after, e.tree, e.seen)
  {
    hide AfterAll, Legitimate, LogOk;
    EveryRunKeepsAny(site, w, turns);
    var w' := AfterAll(site, w, turns);
    var i :| 0 <= i < |w'.log| && w'.log[i].Saved? && SameTarget(w'.disk, w'.log[i].after)
             && Legitimate(site, w'.log[i].before, w'.log[i].after, w'.log[i].tree, w'.log[i].seen);
    assert w'.log[i] in w'.log;
  }

  /** The record's own laws, after any runs: a record that is not pending has no attempts, no clock and no stacks, and
      the gate's counter stays within its limit; and as long as no forced run leaves DEGRADED, DEGRADED is never
      pending. */
  lemma RecordsStayClean(site: Site, w: World, turns: seq<Turn>, m: Mode)
    requires m.Valid() && !m.hold.Pending() && Inv(site, m, w) && AllAllowed(site, m, w, turns)
    ensures var s := AfterAll(site, w, turns).disk;
      && (!s.Pending() ==> s.pendingAttempts == 0 && s.pendingSince == 0 && s.pendingStacks == [])
      && (s.Pending() ==> s.pendingSince != 0)
      && s.preflightBlocks <= 3
      && (!m.revived && s.lastResult == Degraded ==> !s.Pending())
  {
    hide AfterAll, Chronicle;
    EveryRunKeeps(site, m, w, turns);
  }

  /** All but the history and the pause. */
  predicate SameButNotes(a: State, b: State) {
    b == a.(history := b.history, pausedAt := b.pausedAt, pausedUntil := b.pausedUntil)
  }

  /** Nothing but notes was written, and Docker was left alone. */
  predicate OnlyNotes(w: World, w': World) {
    && SameButNotes(w.disk, w'.disk)
    && w'.running == w.running && w'.dirty == w.dirty
    && w.log <= w'.log && forall i :: |w.log| <= i < |w'.log| ==> !TouchesDocker(w'.log[i])
  }

  lemma HistoryIsANote(w: World, env: Env, r: Result, runStart: Instant)
    ensures OnlyNotes(w, RecordHistory(w, env, r, runStart).w)
  {
    hide Save, LastN, Extend;
    var s := Ask(w, env);
    var d := Deployment(s.w.disk.lastAttemptAt, r.newCommit, s.w.disk.lastResult, r.rolledBackTo, 0);
    SaveIsANote(s.w, env, s.w.disk.Record(d));
  }

  lemma SaveIsANote(w: World, env: Env, next: State)
    requires SameButNotes(w.disk, next)
    ensures OnlyNotes(w, Save(w, env, next).w)
  {
  }

  lemma DegradedRunStops(site: Site, w: World, t: Turn)
    requires w.disk.lastResult == Degraded && (t.Attempt? ==> !t.opts.force)
    ensures OnlyNotes(w, After(site, w, t))
  {
    hide RecoverFromCrash, RunNormal, RecordHistory;
    if t.Attempt? {
      var w0 := Begin(w);
      var s := ReconcileLocked(site, t.env, t.opts, w0);
      assert s.w.disk == w.disk && s.w.log == w.log && s.w.running == w.running && s.w.dirty == w.dirty;
      if s.Done? {
        HistoryIsANote(s.w, t.env, s.value, Now(w0, t.env));
      }
    }
  }

  /** DEGRADED is absorbing without force: nothing but notes is ever written again, and Docker is left alone. */
  lemma {:induction false} DegradedIsAbsorbing(site: Site, w: World, turns: seq<Turn>)
    requires w.disk.lastResult == Degraded && NoForce(turns)
    ensures OnlyNotes(w, AfterAll(site, w, turns))
    decreases |turns|
  {
    if turns != [] {
      DegradedRunStops(site, w, turns[0]);
      DegradedIsAbsorbing(site, After(site, w, turns[0]), turns[1..]);
      hide After;
    }
  }

  /** No Pull, Up or Down. */
  predicate Quiet(w: World, w': World) {
    w'.running == w.running && w.log <= w'.log && forall i :: |w.log| <= i < |w'.log| ==> !TouchesDocker(w'.log[i])
  }

  lemma RecordIsQuiet(w: World, env: Env, verdict: Verdict, commit: Commit)
    ensures Quiet(w, RecordOutcome(w, env, verdict, commit).w)
  {
  }

  lemma AbortIsQuiet(w: World, env: Env, r: Result)
    ensures Quiet(w, AbortBeforeUp(w, env, r).w)
  {
    hide RecordOutcome;
    RecordIsQuiet(w, env, FailedApply, r.newCommit);
    RecordIsQuiet(Checkout(w, env, r.oldCommit).w, env, FailedApply, r.newCommit);
  }

  lemma AdvanceIsQuiet(w: World, env: Env, r: Result)
    ensures Quiet(w, AdvanceCheckout(w, env, r).w)
  {
    hide AbortBeforeUp;
    AbortIsQuiet(Checkout(w, env, r.newCommit).w, env, r);
  }

  lemma DryGateIsQuiet(site: Site, w: World, env: Env, force: bool, r: Result)
    ensures Quiet(w, Gate(site, env, Options(true, force), w, r).w)
  {
    hide PassGate, PreflightBlocked, RecordOutcome;
    RecordIsQuiet(Judge(Discover(site, env, w).w, env).w, env, FailedPreflight, r.newCommit);
  }

  lemma DryNormalIsQuiet(site: Site, w: World, env: Env, force: bool)
    ensures Quiet(w, RunNormal(site, env, Options(true, force), w).w)
  {
    hide Gate, AdvanceCheckout, RecordOutcome;
    var s := Fetch(w, env);
    if s.Crashed? { return; }
    if s.value.FetchFailed? {
      RecordIsQuiet(s.w, env, FailedGit, NO_COMMIT);
    } else {
      var g := s.value;
      var r := BLANK.(changed := g.changed, oldCommit := g.head, newCommit := g.tip, files := if g.changed
          then env.diff else []);
      RecordIsQuiet(s.w, env, SkippedKnownBad, g.tip);
      AdvanceIsQuiet(s.w, env, r.(skipped := true));
      DryGateIsQuiet(site, s.w, env, force, r.(changed := true));
    }
  }

  /** A dry run may fetch, check out and save, but it never calls Pull, Up or Down. */
  lemma DryRunLeavesDockerAlone(site: Site, w: World, env: Env, force: bool)
    ensures Quiet(w, After(site, w, Attempt(Options(true, force), env)))
  {
    hide RunNormal, Resume;
    DryNormalIsQuiet(site, Ask(Begin(w), env).w.(mem := w.disk, loaded := w.disk), env, force);
  }
}
