/** What a revert may leave in the durable record, whatever its calls answer and wherever it dies. */
module Reverts {
  import opened Records
  import opened Stacks
  import opened Protocol

  /** Neither record has changed. */
  predicate Unwritten(w: World, w': World) {
    w'.disk == w.disk && w'.mem == w.mem
  }

  lemma {:induction false} LoadAllWritesNothing(w: World, env: Env, names: seq<Name>)
    ensures Unwritten(w, LoadAll(w, env, names).w)
    decreases |names|
  {
    if names != [] {
      LoadAllWritesNothing(Ask(Ask(w, env).w, env).w, env, names[1..]);
    }
  }

  lemma {:induction false} UpAllWritesNothing(w: World, env: Env, names: seq<Name>)
    ensures Unwritten(w, UpAll(w, env, names).w)
    decreases |names|
  {
    if names != [] {
      UpAllWritesNothing(Up(w, env, names[0]).w, env, names[1..]);
    }
  }

  lemma {:induction false} TearDownWritesNothing(w: World, env: Env, names: seq<Name>)
    ensures Unwritten(w, TearDown(w, env, names).w)
    decreases |names|
  {
    if names != [] {
      var r := env.reply(w.tick);
      TearDownWritesNothing(Stopped(Tick(w, env), names[0], r.Ok? || (r.Crash? && env.lands(w.tick))), env, names[1..]);
    }
  }

  /** What the one save of a revert of `commit`, or of no commit, makes of the run's record: it keeps the rollback
      target, the pause, and the marks of the commit; without a commit it also keeps the gate's counter and all marks;
      and what it leaves pending is this revert. */
  predicate Wrote(mem: State, s: State, commit: Commit) {
    && s.lastHealthy == mem.lastHealthy && s.pausedAt == mem.pausedAt && s.pausedUntil == mem.pausedUntil
    && (s.Pending() ==> s.pendingRevert && s.pendingCommit == commit)
    && (mem.IsKnownBad(commit) ==> s.IsKnownBad(commit))
    && (commit == NO_COMMIT ==>
        s.preflightBlocks == mem.preflightBlocks && s.failed == mem.failed && s.lastFailed == mem.lastFailed)
  }

  /** The durable record is the old one or what the save made of the run's. */
  predicate AtMost(w: World, w': World, commit: Commit) {
    w'.disk == w.disk || Wrote(w.mem, w'.disk, commit)
  }

  lemma MarkStays(s: State, commit: Commit)
    requires commit != NO_COMMIT
    ensures s.MarkFailed(commit).IsKnownBad(commit)
  {
  }

  lemma DegradeWrites(w: World, env: Env, commit: Commit, target: Commit)
    ensures AtMost(w, Degrade(w, env, commit, target).w, commit)
  {
    hide LastN, Without;
    if commit != NO_COMMIT {
      MarkStays(NotPending(w.mem).(lastResult := Degraded, lastAttemptAt := Now(w, env)), commit);
    }
  }

  lemma InterruptedWrites(w: World, env: Env, commit: Commit, target: Commit, stacks: seq<Stack>)
    ensures AtMost(w, RevertInterrupted(w, env, commit, target, stacks).w, commit)
  {
    hide LastN, Without;
  }

  lemma FailedWrites(w: World, env: Env, commit: Commit, target: Commit, stacks: seq<Stack>, infra: bool)
    ensures AtMost(w, RevertFailed(w, env, commit, target, stacks, infra).w, commit)
  {
    hide Degrade, RevertInterrupted;
    DegradeWrites(w, env, commit, target);
    InterruptedWrites(w, env, commit, target, stacks);
  }

  lemma FinishWrites(w: World, env: Env, stacks: seq<Stack>, commit: Commit, target: Commit)
    ensures AtMost(w, FinishRevert(w, env, stacks, commit, target).w, commit)
  {
    hide Degrade, RevertInterrupted;
    var w1 := Watch(w, env, Names(stacks)).w;
    DegradeWrites(w1, env, commit, target);
    InterruptedWrites(w1, env, commit, target, stacks);
  }

  lemma RestoreWrites(w: World, env: Env, stacks: seq<Stack>, commit: Commit, target: Commit)
    ensures AtMost(w, RestoreStacks(w, env, stacks, commit, target).w, commit)
  {
    hide LoadAll, UpAll, RevertFailed, FinishRevert;
    LoadAllWritesNothing(w, env, Names(stacks));
    var s1 := LoadAll(w, env, Names(stacks));
    if s1.Crashed? { return; }
    if s1.value.Fault? {
      FailedWrites(s1.w, env, commit, target, stacks, s1.value.infra);
      return;
    }
    UpAllWritesNothing(s1.w, env, Names(stacks));
    var s2 := UpAll(s1.w, env, Names(stacks));
    if s2.Crashed? { return; }
    if s2.value.Fault? {
      FailedWrites(s2.w, env, commit, target, stacks, s2.value.infra);
    } else {
      FinishWrites(s2.w, env, stacks, commit, target);
    }
  }

  /** A revert saves at most once, in any environment. */
  lemma RevertWrites(site: Site, env: Env, w: World, stacks: seq<Stack>, commit: Commit)
    ensures AtMost(w, DoRevert(site, env, w, stacks, commit).w, commit)
  {
    hide Degrade, RevertFailed, RestoreStacks, TearDown, Vanished, Intersect;
    var target := w.mem.lastHealthy;
    DegradeWrites(w, env, commit, NO_COMMIT);
    if target == NO_COMMIT { return; }
    var s1 := Checkout(w, env, target);
    if s1.Crashed? { return; }
    if s1.value.Fault? {
      FailedWrites(s1.w, env, commit, target, stacks, s1.value.infra);
      return;
    }
    var s2 := Discover(site, env, s1.w.(mem := s1.w.mem.(lastCheckout := target)));
    if s2.Crashed? { return; }
    if s2.value.0.Fault? {
      FailedWrites(s2.w, env, commit, target, stacks, s2.value.0.infra);
      return;
    }
    var gone := Names(Vanished(stacks, s2.value.1));
    TearDownWritesNothing(s2.w, env, gone);
    var s3 := TearDown(s2.w, env, gone);
    if s3.Crashed? { return; }
    if s3.value.Fault? {
      FailedWrites(s3.w, env, commit, target, stacks, s3.value.infra);
    } else {
      RestoreWrites(s3.w, env, Intersect(s2.value.1, stacks), commit, target);
    }
  }

  /*** Projects a revert has nothing to do with ***/

  /** The project is as touched as it was. */
  predicate Spares(w: World, w': World, n: Name) {
    n in w.dirty ==> n in w'.dirty && w'.dirty[n] == w.dirty[n]
  }

  lemma {:induction false} LoadAllSpares(w: World, env: Env, names: seq<Name>)
    ensures LoadAll(w, env, names).w.dirty == w.dirty
    decreases |names|
  {
    if names != [] {
      LoadAllSpares(Ask(Ask(w, env).w, env).w, env, names[1..]);
    }
  }

  lemma {:induction false} UpAllSpares(w: World, env: Env, names: seq<Name>, n: Name)
    requires n !in names
    ensures Spares(w, UpAll(w, env, names).w, n)
    decreases |names|
  {
    if names != [] {
      UpAllSpares(Up(w, env, names[0]).w, env, names[1..], n);
    }
  }

  lemma {:induction false} TearDownSpares(w: World, env: Env, names: seq<Name>, n: Name)
    requires n !in names
    ensures Spares(w, TearDown(w, env, names).w, n)
    decreases |names|
  {
    if names != [] {
      var r := env.reply(w.tick);
      TearDownSpares(Stopped(Tick(w, env), names[0], r.Ok? || (r.Crash? && env.lands(w.tick))), env, names[1..], n);
    }
  }

  lemma SaveSpares(w: World, env: Env, next: State)
    requires next.lastHealthy == w.disk.lastHealthy
    ensures SaveNext(w, env, next).w.dirty == w.dirty && Save(w, env, next).w.dirty == w.dirty
  {
  }

  lemma FailedSpares(w: World, env: Env, commit: Commit, target: Commit, stacks: seq<Stack>, infra: bool)
    requires w.mem.lastHealthy == w.disk.lastHealthy
    ensures RevertFailed(w, env, commit, target, stacks, infra).w.dirty == w.dirty
    ensures RevertInterrupted(w, env, commit, target, stacks).w.dirty == w.dirty
    ensures Degrade(w, env, commit, target).w.dirty == w.dirty
  {
    hide SaveNext, LastN, Without;
    SaveSpares(w, env, DegradedOf(w.mem, commit, Now(w, env)));
    SaveSpares(w, env, InterruptedOf(w.mem, commit, Names(stacks), Now(w, env)));
  }

  lemma FinishSpares(w: World, env: Env, stacks: seq<Stack>, commit: Commit, target: Commit)
    requires w.mem.lastHealthy == w.disk.lastHealthy
    ensures FinishRevert(w, env, stacks, commit, target).w.dirty == w.dirty
  {
    hide SaveNext, RevertInterrupted, Degrade;
    var w1 := Watch(w, env, Names(stacks)).w;
    FailedSpares(w1, env, commit, target, stacks, false);
    SaveSpares(w1, env, RevertedOf(w1.mem, commit, target, Now(w1, env)));
  }

  lemma RestoreSpares(w: World, env: Env, stacks: seq<Stack>, commit: Commit, target: Commit, n: Name)
    requires w.mem.lastHealthy == w.disk.lastHealthy && n !in Names(stacks)
    ensures Spares(w, RestoreStacks(w, env, stacks, commit, target).w, n)
  {
    hide LoadAll, UpAll, RevertFailed, FinishRevert;
    LoadAllWritesNothing(w, env, Names(stacks));
    LoadAllSpares(w, env, Names(stacks));
    var s1 := LoadAll(w, env, Names(stacks));
    if s1.Crashed? { return; }
    if s1.value.Fault? {
      FailedSpares(s1.w, env, commit, target, stacks, s1.value.infra);
      return;
    }
    UpAllWritesNothing(s1.w, env, Names(stacks));
    UpAllSpares(s1.w, env, Names(stacks), n);
    var s2 := UpAll(s1.w, env, Names(stacks));
    if s2.Crashed? { return; }
    if s2.value.Fault? {
      FailedSpares(s2.w, env, commit, target, stacks, s2.value.infra);
    } else {
      FinishSpares(s2.w, env, stacks, commit, target);
    }
  }

  lemma NotAmong(a: seq<Stack>, b: seq<Stack>, n: Name)
    requires n !in NameSet(b)
    ensures n !in Names(Vanished(b, a)) && n !in Names(Intersect(a, b))
  {
    assert n !in NameSet(Vanished(b, a)) && n !in NameSet(Intersect(a, b));
  }

  /** A revert leaves every project but its own stacks as touched as it was, in any environment. */
  lemma RevertSpares(site: Site, env: Env, w: World, stacks: seq<Stack>, commit: Commit, n: Name)
    requires w.mem.lastHealthy == w.disk.lastHealthy && n !in NameSet(stacks)
    ensures Spares(w, DoRevert(site, env, w, stacks, commit).w, n)
  {
    hide Degrade, RevertFailed, RestoreStacks, TearDown, Vanished, Intersect, NameSet;
    var target := w.mem.lastHealthy;
    FailedSpares(w, env, commit, NO_COMMIT, stacks, false);
    if target == NO_COMMIT { return; }
    var s1 := Checkout(w, env, target);
    if s1.Crashed? { return; }
    if s1.value.Fault? {
      FailedSpares(s1.w, env, commit, target, stacks, s1.value.infra);
      return;
    }
    var s2 := Discover(site, env, s1.w.(mem := s1.w.mem.(lastCheckout := target)));
    if s2.Crashed? { return; }
    if s2.value.0.Fault? {
      FailedSpares(s2.w, env, commit, target, stacks, s2.value.0.infra);
      return;
    }
    NotAmong(s2.value.1, stacks, n);
    var gone := Names(Vanished(stacks, s2.value.1));
    TearDownWritesNothing(s2.w, env, gone);
    TearDownSpares(s2.w, env, gone, n);
    var s3 := TearDown(s2.w, env, gone);
    if s3.Crashed? { return; }
    if s3.value.Fault? {
      FailedSpares(s3.w, env, commit, target, stacks, s3.value.infra);
    } else {
      RestoreSpares(s3.w, env, Intersect(s2.value.1, stacks), commit, target, n);
    }
  }

  /** Recording a run changes the history alone. */
  lemma HistoryWrites(w: World, env: Env, r: Result, runStart: Instant)
    ensures var w' := RecordHistory(w, env, r, runStart).w;
      && w'.disk == w.disk.(history := w'.disk.history)
      && w'.running == w.running && w'.dirty == w.dirty && w.log <= w'.log
  {
    hide LastN, Extend;
  }
}
