/** The reconcile package as the imperative program it is: an object whose methods change the run's record, the durable
    record, the worktree and Docker step by step. Each method is proved to compute what Protocol says, so everything
    proved of the functions there holds of these methods. */
module Reconciling {
  import opened Records
  import opened Stacks
  import opened StackSets
  import P = Protocol

  /** How a call comes back: not at all, when the process dies in it, or with a value. */
  datatype Outcome<T> = Died | Back(value: T)
  {
    predicate IsFailure() {
      Died?
    }

    function PropagateFailure<U>(): Outcome<U>
      requires IsFailure()
    {
      Died
    }

    function Extract(): T
      requires !IsFailure()
    {
      value
    }

    function At(w: P.World): P.Step<T> {
      if Died? then P.Crashed(w) else P.Done(w, value)
    }
  }

  class Reconciler {
    const site: P.Site
    const env: P.Env

    var disk: State
    var st: State
    var tree: Commit
    var running: set<Name>
    var tick: nat
    var cancelled: bool

    ghost var loaded: State
    ghost var dirty: map<Name, Commit>
    ghost var seen: P.Evidence
    ghost var log: seq<P.Event>

    ghost function Here(): P.World
      reads this
    {
      P.World(disk, st, loaded, tree, running, dirty, seen, log, tick, cancelled)
    }

    /** A process starts on what the last one left. */
    constructor (site: P.Site, env: P.Env, ghost w: P.World, disk: State, tree: Commit, running: set<Name>)
      requires disk == w.disk && tree == w.tree && running == w.running
      ensures this.site == site && this.env == env
      ensures Here() == P.Begin(w)
    {
      this.site, this.env := site, env;
      this.disk, this.st, this.tree, this.running := disk, disk, tree, running;
      this.tick, this.cancelled := 0, false;
      this.loaded, this.dirty, this.seen, this.log := w.loaded, w.dirty, P.NOTHING, w.log;
    }

    /*** Calls ***/

    method Reply() returns (r: P.Reply, at: nat)
      modifies this
      ensures at == old(tick) && r == env.reply(at) && Here() == P.Tick(old(Here()), env)
    {
      at := tick;
      r := env.reply(tick);
      cancelled := cancelled || env.cancels(tick);
      tick := tick + 1;
    }

    method Now() returns (t: Instant)
      ensures t == P.Now(Here(), env)
    {
      t := env.clock(tick) + 1;
    }

    method Ask() returns (r: Outcome<P.Fault>)
      modifies this
      ensures r.At(Here()) == P.Ask(old(Here()), env)
    {
      var reply, _ := Reply();
      if reply.Crash? { return Died; }
      r := Back(P.FaultOf(reply));
    }

    method Save(next: State) returns (r: Outcome<bool>)
      modifies this
      ensures r.At(Here()) == P.Save(old(Here()), env, next)
    {
      var reply, at := Reply();
      if reply.Ok? || env.lands(at) {
        log := log + [P.Saved(disk, next, tree, seen)];
        if next.lastHealthy != disk.lastHealthy {
          dirty := map n | n in dirty && dirty[n] != next.lastHealthy :: dirty[n];
        }
        disk := next;
      }
      if reply.Crash? { return Died; }
      r := Back(reply.Ok?);
    }

    method SaveNext(next: State) returns (r: Outcome<bool>)
      modifies this
      ensures r.At(Here()) == P.SaveNext(old(Here()), env, next)
    {
      var ok :- Save(next);
      if ok {
        st := next;
      }
      r := Back(ok);
    }

    method Checkout(commit: Commit) returns (r: Outcome<P.Fault>)
      modifies this
      ensures r.At(Here()) == P.Checkout(old(Here()), env, commit)
    {
      if commit == NO_COMMIT { return Back(P.Fault(false)); }
      var reply, at := Reply();
      tree := if reply.Ok? then commit else env.debris(at);
      seen := P.NOTHING;
      log := log + [P.CheckedOut(commit, reply.Ok?)];
      if reply.Crash? { return Died; }
      r := Back(P.FaultOf(reply));
    }

    method Up(name: Name) returns (r: Outcome<P.Fault>)
      modifies this
      ensures r.At(Here()) == P.Up(old(Here()), env, name)
    {
      var reply, _ := Reply();
      running := running + {name};
      log := log + [P.Upped(name, tree, loaded, disk, reply.Ok?)];
      if tree != disk.lastHealthy {
        dirty := dirty[name := tree];
      } else if reply.Ok? {
        dirty := dirty - {name};
      }
      if reply.Ok? {
        seen := seen.(up := seen.up + {name});
      }
      if reply.Crash? { return Died; }
      r := Back(P.FaultOf(reply));
    }

    method Pull(name: Name) returns (r: Outcome<P.Fault>)
      modifies this
      ensures r.At(Here()) == P.Pull(old(Here()), env, name)
    {
      log := log + [P.Pulled(name, disk)];
      r := Ask();
    }

    method Discover() returns (r: Outcome<(P.Fault, seq<Stack>)>)
      modifies this
      ensures r.At(Here()) == P.Discover(site, env, old(Here()))
    {
      var f :- Ask();
      r := Back((f, if f.NoFault? then site.stacksAt(tree) else []));
    }

    method Fetch() returns (r: Outcome<P.Fetched>)
      modifies this
      ensures r.At(Here()) == P.Fetch(old(Here()), env)
    {
      var f :- Ask();
      if f.Fault? || (tree != env.branch && (tree == NO_COMMIT || env.branch == NO_COMMIT)) {
        return Back(P.FetchFailed);
      }
      r := Back(P.Fetched(tree != env.branch, tree, env.branch));
    }

    method Judge() returns (r: Outcome<(P.Fault, bool)>)
      modifies this
      ensures r.At(Here()) == P.Judge(old(Here()), env)
    {
      var at := tick;
      var f :- Ask();
      r := Back((f, env.sound(at)));
    }

    method Watch(names: seq<Name>) returns (r: Outcome<(P.Fault, bool)>)
      modifies this
      ensures r.At(Here()) == P.Watch(old(Here()), env, names)
    {
      if |names| == 0 { return Back((P.NoFault, true)); }
      var v :- Judge();
      if v.0.NoFault? && v.1 {
        seen := seen.(healthy := seen.healthy + set n | n in names);
      }
      r := Back(v);
    }

    method LoadAll(names: seq<Name>) returns (r: Outcome<P.Fault>)
      modifies this
      ensures r.At(Here()) == P.LoadAll(old(Here()), env, names)
    {
      for i := 0 to |names|
        invariant P.LoadAll(old(Here()), env, names) == P.LoadAll(Here(), env, names[i..])
      {
        assert names[i..][1..] == names[i + 1..];
        var f :- Ask();
        if f.Fault? { return Back(f); }
        var g :- Ask();
        if g.Fault? { return Back(g); }
      }
      r := Back(P.NoFault);
    }

    method PullAll(names: seq<Name>) returns (r: Outcome<P.Fault>)
      modifies this
      ensures r.At(Here()) == P.PullAll(old(Here()), env, names)
    {
      for i := 0 to |names|
        invariant P.PullAll(old(Here()), env, names) == P.PullAll(Here(), env, names[i..])
      {
        assert names[i..][1..] == names[i + 1..];
        var f :- Pull(names[i]);
        if f.Fault? { return Back(f); }
      }
      r := Back(P.NoFault);
    }

    method UpAll(names: seq<Name>) returns (r: Outcome<P.Fault>)
      modifies this
      ensures r.At(Here()) == P.UpAll(old(Here()), env, names)
    {
      for i := 0 to |names|
        invariant P.UpAll(old(Here()), env, names) == P.UpAll(Here(), env, names[i..])
      {
        assert names[i..][1..] == names[i + 1..];
        var f :- Up(names[i]);
        if f.Fault? { return Back(f); }
      }
      r := Back(P.NoFault);
    }

    method Down(name: Name) returns (reply: P.Reply)
      modifies this
      ensures var at := old(tick);
        && reply == env.reply(at)
        && Here() == P.Stopped(P.Tick(old(Here()), env), name, reply.Ok? || (reply.Crash? && env.lands(at)))
    {
      var at;
      reply, at := Reply();
      var gone := reply.Ok? || (reply.Crash? && env.lands(at));
      log := log + [P.Downed(name, disk, gone)];
      if gone {
        running := running - {name};
        dirty := dirty - {name};
        seen := seen.(down := seen.down + {name});
      }
    }

    method TearDownStacks(names: seq<Name>) returns (r: Outcome<P.Fault>)
      modifies this
      ensures r.At(Here()) == P.TearDown(old(Here()), env, names)
    {
      var died, fault := false, P.NoFault;
      for i := 0 to |names|
        invariant P.TearDown(old(Here()), env, names) == Joined(died, fault, P.TearDown(Here(), env, names[i..]))
      {
        assert names[i..][1..] == names[i + 1..];
        var reply := Down(names[i]);
        if reply.Crash? {
          died := true;
        } else {
          fault := P.JoinFaults(fault, P.FaultOf(reply));
        }
      }
      if died { return Died; }
      r := Back(fault);
    }

    /*** revert.go ***/

    method Degrade(failedCommit: Commit, target: Commit) returns (r: Outcome<P.Result>)
      modifies this
      ensures r.At(Here()) == P.Degrade(old(Here()), env, failedCommit, target)
    {
      var now := Now();
      var next := st;
      next := next.(lastResult := Degraded, lastAttemptAt := now);
      next := next.(pendingCommit := NO_COMMIT, pendingSince := 0, pendingAttempts := 0, pendingStacks := [],
          pendingRevert := false);
      if failedCommit != NO_COMMIT {
        next := next.MarkFailed(failedCommit);
        next := next.(lastAttempt := failedCommit);
      }
      var _ :- SaveNext(next);
      r := Back(P.BLANK.(degraded := true, rolledBackTo := target, failed := true));
    }

    method RevertInterrupted(failedCommit: Commit, target: Commit, stacks: seq<Stack>) returns (r: Outcome<P.Result>)
      modifies this
      ensures r.At(Here()) == P.RevertInterrupted(old(Here()), env, failedCommit, target, stacks)
    {
      var now := Now();
      var next := st;
      next := next.(pendingRevert := true, pendingCommit := failedCommit);
      if Names(stacks) != [] {
        next := next.(pendingStacks := Names(stacks));
      }
      if next.pendingSince == 0 {
        next := next.(pendingSince := now);
      }
      if failedCommit != NO_COMMIT {
        next := next.MarkFailed(failedCommit);
        next := next.(lastAttempt := failedCommit);
      }
      next := next.(lastAttemptAt := now, lastResult := FailedApply);
      var _ :- SaveNext(next);
      r := Back(P.BLANK.(rolledBackTo := target, failed := true));
    }

    method RevertFailed(failedCommit: Commit, target: Commit, stacks: seq<Stack>, infra: bool)
        returns (r: Outcome<P.Result>)
      modifies this
      ensures r.At(Here()) == P.RevertFailed(old(Here()), env, failedCommit, target, stacks, infra)
    {
      if cancelled || infra {
        r := RevertInterrupted(failedCommit, target, stacks);
      } else {
        r := Degrade(failedCommit, target);
      }
    }

    method DoRevert(stacks: seq<Stack>, failedCommit: Commit) returns (r: Outcome<P.Result>)
      modifies this
      ensures r.At(Here()) == P.DoRevert(site, env, old(Here()), stacks, failedCommit)
    {
      hide P.RestoreStacks, P.RevertFailed, P.Degrade, P.Checkout, P.Discover, P.TearDown;
      var target := st.lastHealthy;
      if target == NO_COMMIT {
        r := Degrade(failedCommit, NO_COMMIT);
        return;
      }
      var f :- Checkout(target);
      if f.Fault? {
        r := RevertFailed(failedCommit, target, stacks, f.infra);
        return;
      }
      st := st.(lastCheckout := target);
      var d :- Discover();
      if d.0.Fault? {
        r := RevertFailed(failedCommit, target, stacks, d.0.infra);
        return;
      }
      var revertStacks := IntersectByProjectName(d.1, stacks);
      var gone := VanishedStacks(stacks, d.1);
      var g :- TearDownStacks(Names(gone));
      if g.Fault? {
        r := RevertFailed(failedCommit, target, stacks, g.infra);
        return;
      }
      r := RestoreStacks(revertStacks, failedCommit, target);
    }

    method RestoreStacks(stacks: seq<Stack>, failedCommit: Commit, target: Commit) returns (r: Outcome<P.Result>)
      modifies this
      ensures r.At(Here()) == P.RestoreStacks(old(Here()), env, stacks, failedCommit, target)
    {
      hide P.RevertFailed, P.RevertInterrupted, P.Degrade, P.Watch, P.SaveNext, P.LoadAll, P.UpAll;
      var f :- LoadAll(Names(stacks));
      if f.Fault? {
        r := RevertFailed(failedCommit, target, stacks, f.infra);
        return;
      }
      var g :- UpAll(Names(stacks));
      if g.Fault? {
        r := RevertFailed(failedCommit, target, stacks, g.infra);
        return;
      }
      var v :- Watch(Names(stacks));
      if v.0.Fault? {
        r := RevertInterrupted(failedCommit, target, stacks);
        return;
      }
      if !v.1 {
        r := Degrade(failedCommit, target);
        return;
      }
      var now := Now();
      var next := st;
      next := next.(pendingCommit := NO_COMMIT, pendingSince := 0, pendingAttempts := 0, pendingStacks := [],
          pendingRevert := false);
      next := next.(lastCheckout := target, lastAttemptAt := now);
      if failedCommit != NO_COMMIT {
        next := next.(lastAttempt := failedCommit, preflightBlocks := 0);
      }
      next := next.(lastResult := Reverted);
      var _ :- SaveNext(next);
      r := Back(P.BLANK.(reverted := true, rolledBackTo := target, failed := true));
    }

    /*** apply.go ***/

    method RecordOutcome(verdict: Verdict, commit: Commit) returns (r: Outcome<()>)
      modifies this
      ensures r.At(Here()) == P.RecordOutcome(old(Here()), env, verdict, commit)
    {
      var now := Now();
      var next := st.(lastResult := verdict, lastAttemptAt := now);
      if commit != NO_COMMIT {
        next := next.(lastAttempt := commit);
      }
      var _ :- SaveNext(next);
      r := Back(());
    }

    method Incomplete(res: P.Result) returns (r: Outcome<P.Result>)
      modifies this
      ensures r.At(Here()) == P.Incomplete(old(Here()), env, res)
    {
      if !cancelled {
        var _ :- RecordOutcome(FailedApply, res.newCommit);
      }
      r := Back(res.(failed := true));
    }

    method AbortBeforeUp(res: P.Result) returns (r: Outcome<P.Result>)
      modifies this
      ensures r.At(Here()) == P.AbortBeforeUp(old(Here()), env, res)
    {
      if res.oldCommit != NO_COMMIT {
        var _ :- Checkout(res.oldCommit);
      }
      r := Incomplete(res);
    }

    method AbortApply(res: P.Result, infra: bool) returns (r: Outcome<P.Result>)
      modifies this
      ensures r.At(Here()) == P.AbortApply(old(Here()), env, res, infra)
    {
      if !infra {
        st := st.MarkFailed(res.newCommit);
      }
      r := AbortBeforeUp(res);
    }

    method FailAndRevert(stacks: seq<Stack>, res: P.Result) returns (r: Outcome<P.Result>)
      modifies this
      ensures r.At(Here()) == P.FailAndRevert(site, env, old(Here()), stacks, res)
    {
      hide P.DoRevert, P.Save;
      st := st.MarkFailed(res.newCommit);
      st := st.(lastResult := FailedApply);
      var _ :- Save(st);
      var v :- DoRevert(stacks, res.newCommit);
      r := Back(res.(reverted := v.reverted, degraded := v.degraded, rolledBackTo := v.rolledBackTo,
          failed := v.failed));
    }

    method PromoteHealthy(res: P.Result, stacks: seq<Stack>) returns (r: Outcome<P.Result>)
      modifies this
      ensures r.At(Here()) == P.Promote(site, env, old(Here()), res, stacks)
    {
      var now := Now();
      var next := st;
      next := next.(lastHealthy := res.newCommit, lastHealthyStacks := Names(stacks), lastCheckout := res.newCommit);
      next := next.(pendingCommit := NO_COMMIT, pendingSince := 0, pendingAttempts := 0, pendingStacks := [],
          pendingRevert := false);
      next := next.(preflightBlocks := 0);
      next := next.ForgetAllFailed();
      next := next.(lastAttempt := res.newCommit, lastAttemptAt := now, lastResult := Success);
      var ok :- SaveNext(next);
      r := Back(res.(failed := !ok));
    }

    method ApplyAndWatch(res: P.Result, previous: seq<Stack>, pendingStacks: seq<Name>) returns (r: Outcome<P.Result>)
      modifies this
      ensures r.At(Here()) == P.ApplyAndWatch(site, env, old(Here()), res, previous, pendingStacks)
    {
      hide P.ApplyChanged, P.ApplyNothing, P.AbortApply, P.AbortBeforeUp, P.Checkout, P.Discover, P.Weighed;
      var f :- Checkout(res.newCommit);
      if f.Fault? {
        r := AbortBeforeUp(res);
        return;
      }
      var d :- Discover();
      if d.0.Fault? {
        r := AbortApply(res, d.0.infra);
        return;
      }
      var stacks := d.1;
      var vanished := VanishedStacks(previous, stacks);
      var changed, undetermined := stacks, false;
      if st.lastHealthy == NO_COMMIT {
      } else if |res.files| > 0 {
        changed, undetermined := KeepTouched(env, stacks);
      } else if |pendingStacks| > 0 {
        changed := RestrictToNames(stacks, pendingStacks);
      }
      seen := seen.(needs := P.NeedsOf(env, st, res, stacks, pendingStacks), former := NameSet(previous));
      if |changed| == 0 {
        r := ApplyNothing(res, stacks, vanished, undetermined);
      } else {
        r := ApplyChanged(res, stacks, changed, vanished);
      }
    }

    method ApplyNothing(res: P.Result, stacks: seq<Stack>, vanished: seq<Stack>, undetermined: bool)
        returns (r: Outcome<P.Result>)
      modifies this
      ensures r.At(Here()) == P.ApplyNothing(site, env, old(Here()), res, stacks, vanished, undetermined)
    {
      var f :- TearDownStacks(Names(vanished));
      if f.Fault? {
        r := Incomplete(res);
        return;
      }
      if undetermined { return Back(res.(skipped := true)); }
      r := PromoteHealthy(res.(skipped := true), stacks);
    }

    method ApplyChanged(res: P.Result, stacks: seq<Stack>, changed: seq<Stack>, vanished: seq<Stack>)
        returns (r: Outcome<P.Result>)
      modifies this
      ensures r.At(Here()) == P.ApplyChanged(site, env, old(Here()), res, stacks, changed, vanished)
    {
      hide P.UpAndWatch, P.AbortApply, P.AbortBeforeUp, P.LoadAll, P.PullAll, P.SaveNext, P.PendingOf;
      var f :- LoadAll(Names(changed));
      if f.Fault? {
        r := AbortApply(res, f.infra);
        return;
      }
      var g :- PullAll(Names(changed));
      if g.Fault? {
        r := AbortApply(res, g.infra);
        return;
      }
      var ok :- SavePending(res.newCommit, Names(changed));
      if !ok {
        r := AbortBeforeUp(res);
        return;
      }
      r := UpAndWatch(res, stacks, changed, vanished);
    }

    /** The save that announces an apply before its first Up. */
    method SavePending(commit: Commit, names: seq<Name>) returns (r: Outcome<bool>)
      modifies this
      ensures r.At(Here()) == P.SaveNext(old(Here()), env, P.PendingOf(old(st), commit, names, P.Now(old(Here()), env)))
    {
      hide P.SaveNext;
      var now := Now();
      var next := st;
      if next.pendingCommit != commit {
        next := next.(pendingAttempts := 0, pendingSince := now);
      } else if next.pendingSince == 0 {
        next := next.(pendingSince := now);
      }
      next := next.(pendingCommit := commit, pendingStacks := names, lastCheckout := commit);
      next := next.(lastAttempt := commit, lastAttemptAt := now);
      r := SaveNext(next);
    }

    method UpAndWatch(res: P.Result, stacks: seq<Stack>, changed: seq<Stack>, vanished: seq<Stack>)
        returns (r: Outcome<P.Result>)
      modifies this
      ensures r.At(Here()) == P.UpAndWatch(site, env, old(Here()), res, stacks, changed, vanished)
    {
      hide P.FailAndRevert, P.Incomplete, P.Promote, P.UpAll, P.Watch, P.TearDown;
      var f :- UpAll(Names(changed));
      if f.Fault? {
        if cancelled {
          return Back(res.(failed := true));
        } else if f.infra {
          r := Incomplete(res);
        } else {
          r := FailAndRevert(changed, res);
        }
        return;
      }
      var res1 := res.(applied := true);
      var v :- Watch(Names(changed));
      if v.0.Fault? {
        r := Incomplete(res1);
        return;
      }
      if v.1 {
        var g :- TearDownStacks(Names(vanished));
        if g.Fault? {
          r := Incomplete(res1);
        } else {
          r := PromoteHealthy(res1, stacks);
        }
        return;
      }
      r := FailAndRevert(changed, res1);
    }

    method AdvanceCheckout(res: P.Result) returns (r: Outcome<P.Result>)
      modifies this
      ensures r.At(Here()) == P.AdvanceCheckout(old(Here()), env, res)
    {
      hide P.AbortBeforeUp;
      var f :- Checkout(res.newCommit);
      if f.Fault? {
        r := AbortBeforeUp(res);
        return;
      }
      var now := Now();
      var ok :- SaveNext(st.(lastCheckout := res.newCommit, lastAttempt := res.newCommit, lastAttemptAt := now,
          lastResult := Success));
      r := Back(res.(failed := !ok));
    }

    method ClearPreflightBlocks() returns (r: Outcome<()>)
      modifies this
      ensures r.At(Here()) == P.ClearBlocks(old(Here()), env)
    {
      if st.preflightBlocks != 0 {
        var _ :- SaveNext(st.(preflightBlocks := 0));
      }
      r := Back(());
    }

    method PreflightBlocked(force: bool, res: P.Result, previous: seq<Stack>) returns (r: Outcome<P.Result>)
      modifies this
      ensures r.At(Here()) == P.PreflightBlocked(site, env, force, old(Here()), res, previous)
    {
      hide P.DoRevert, P.Degrade, P.SaveNext;
      if force {
        st := st.(preflightBlocks := 0);
      }
      var v;
      if st.preflightBlocks >= P.MAX_PREFLIGHT_BLOCKS {
        v :- Degrade(NO_COMMIT, st.lastHealthy);
      } else {
        var _ :- SaveNext(st.(preflightBlocks := st.preflightBlocks + 1));
        v :- DoRevert(previous, NO_COMMIT);
      }
      r := Back(v.(changed := res.changed, oldCommit := res.oldCommit, newCommit := res.newCommit, files := res.files));
    }

    method RunNormal(opts: P.Options) returns (r: Outcome<P.Result>)
      modifies this
      ensures r.At(Here()) == P.RunNormal(site, env, opts, old(Here()))
    {
      hide P.Gate, P.AdvanceCheckout, P.RecordOutcome, P.Fetch;
      var g :- Fetch();
      if g.FetchFailed? {
        if !cancelled {
          var _ :- RecordOutcome(FailedGit, NO_COMMIT);
        }
        return Back(P.BLANK.(failed := true));
      }
      var res := P.BLANK.(changed := g.changed, oldCommit := g.head, newCommit := g.tip, files := if g.changed
          then env.diff else []);
      if !g.changed && !P.Drifted(st, g.head) { return Back(res); }
      if st.IsKnownBad(g.tip) && !opts.force {
        var _ :- RecordOutcome(SkippedKnownBad, g.tip);
        return Back(res.(skipped := true));
      }
      if env.windowClosed && g.changed { return Back(res.(skipped := true)); }
      if !g.changed {
        res := res.(changed := true);
      } else if st.lastHealthy != NO_COMMIT && !env.relevant {
        r := AdvanceCheckout(res.(skipped := true));
        return;
      }
      r := Gate(opts, res);
    }

    method Gate(opts: P.Options, res: P.Result) returns (r: Outcome<P.Result>)
      modifies this
      ensures r.At(Here()) == P.Gate(site, env, opts, old(Here()), res)
    {
      hide P.PreflightBlocked, P.ApplyAndWatch, P.RecordOutcome, P.Discover, P.Judge, P.ClearBlocks;
      var d :- Discover();
      var previous := d.1;
      if d.0.Fault? {
        if cancelled { return Back(res.(failed := true)); }
        previous := DeployedStacks(st.lastHealthyStacks, []);
      }
      var v :- Judge();
      if v.0.Fault? {
        if !cancelled {
          var _ :- RecordOutcome(FailedPreflight, res.newCommit);
        }
        return Back(res.(failed := true));
      }
      if opts.dryRun {
        return Back(if v.1 then res else res.(skipped := true, failed := true));
      }
      if !v.1 {
        r := PreflightBlocked(opts.force, res, previous);
        return;
      }
      var _ :- ClearPreflightBlocks();
      var deployed := DeployedStacks(st.lastHealthyStacks, previous);
      r := ApplyAndWatch(res, deployed, []);
    }

    /*** recovery.go ***/

    method SupersedingCommit(force: bool, pending: Commit) returns (r: Outcome<Commit>)
      modifies this
      ensures r.At(Here()) == P.SupersedingCommit(old(Here()), env, force, pending)
    {
      var g :- Fetch();
      if g.FetchFailed? { return Back(NO_COMMIT); }
      if g.tip == NO_COMMIT || g.tip == pending { return Back(NO_COMMIT); }
      if st.IsKnownBad(g.tip) && !force { return Back(NO_COMMIT); }
      r := Back(g.tip);
    }

    method RecoverFromCrash(opts: P.Options) returns (r: Outcome<P.Result>)
      modifies this
      ensures r.At(Here()) == P.RecoverFromCrash(site, env, opts, old(Here()))
    {
      hide P.SupersedingCommit, P.Degrade, P.Resume;
      var commit := st.pendingCommit;
      if opts.dryRun { return Back(P.BLANK.(newCommit := commit)); }
      if opts.force {
        var now := Now();
        st := st.(pendingAttempts := 0, pendingSince := now);
      }
      var superseding := NO_COMMIT;
      if !st.RevertInProgress() {
        superseding :- SupersedingCommit(opts.force, commit);
      }
      if superseding == NO_COMMIT {
        if st.pendingAttempts >= P.MAX_RECOVERY_ATTEMPTS {
          r := Degrade(commit, NO_COMMIT);
          return;
        }
        var now := Now();
        if P.RecoveryExpired(site, st, now) {
          r := Degrade(commit, NO_COMMIT);
          return;
        }
      }
      r := Resume(commit, superseding);
    }

    method CountRecoveryAttempt() returns (r: Outcome<bool>)
      modifies this
      ensures r.At(Here()) == P.SaveNext(old(Here()), env, P.AttemptOf(old(st)))
    {
      r := SaveNext(st.(pendingAttempts := st.pendingAttempts + 1));
    }

    method Resume(commit: Commit, superseding: Commit) returns (r: Outcome<P.Result>)
      modifies this
      ensures r.At(Here()) == P.Resume(site, env, old(Here()), commit, superseding)
    {
      hide P.DoRevert, P.ApplyAndWatch, P.Discover, P.Judge, P.SaveNext;
      var d :- Discover();
      if d.0.Fault? { return Back(P.BLANK.(newCommit := commit, failed := true)); }
      var healthy := false;
      if !st.RevertInProgress() {
        var v :- Judge();
        if v.0.Fault? { return Back(P.BLANK.(newCommit := commit, failed := true)); }
        healthy := v.1;
      }
      var ok :- CountRecoveryAttempt();
      if !ok { return Back(P.BLANK.(newCommit := commit, failed := true)); }
      if !healthy {
        var stacks := RestrictToNames(d.1, st.pendingStacks);
        var v :- DoRevert(stacks, commit);
        return Back(v.(newCommit := commit));
      }
      var deployed := DeployedStacks(st.lastHealthyStacks, d.1);
      if superseding != NO_COMMIT {
        r := ApplyAndWatch(P.BLANK.(changed := true, newCommit := superseding, oldCommit := commit), deployed, []);
      } else {
        r := ApplyAndWatch(P.BLANK.(newCommit := commit, oldCommit := st.lastHealthy), deployed, st.pendingStacks);
      }
    }

    /*** reconcile.go ***/

    method ReconcileLocked(opts: P.Options) returns (r: Outcome<P.Result>)
      modifies this
      ensures r.At(Here()) == P.ReconcileLocked(site, env, opts, old(Here()))
    {
      hide P.RecoverFromCrash, P.RunNormal, P.Fetch;
      var f :- Ask();
      if f.Fault? { return Back(P.BLANK.(failed := true)); }
      st := disk;
      loaded := disk;
      var now := Now();
      if st.Paused(now) {
        var res := P.BLANK.(skipped := true);
        var g :- Fetch();
        if g.Fetched? {
          res := res.(changed := g.changed, oldCommit := g.head, newCommit := g.tip);
        }
        return Back(res);
      }
      if st.lastResult == Degraded && !opts.force {
        return Back(P.BLANK.(degraded := true, newCommit := st.lastAttempt, failed := true));
      }
      if st.Pending() {
        r := RecoverFromCrash(opts);
      } else {
        r := RunNormal(opts);
      }
    }

    method RecordHistory(res: P.Result, runStart: Instant) returns (r: Outcome<()>)
      modifies this
      ensures r.At(Here()) == P.RecordHistory(old(Here()), env, res, runStart)
    {
      if !res.applied && !res.reverted && !res.degraded && !res.failed { return Back(()); }
      var f :- Ask();
      if f.Fault? { return Back(()); }
      var s := disk;
      if s.lastAttemptAt < runStart || s.lastResult == SkippedKnownBad { return Back(()); }
      var entry := Deployment(s.lastAttemptAt, res.newCommit, s.lastResult, res.rolledBackTo, 0);
      var _ :- Save(s.Record(entry));
      r := Back(());
    }

    method Reconcile(opts: P.Options) returns (r: Outcome<P.Result>)
      modifies this
      ensures r.At(Here()) == P.Reconcile(site, env, opts, old(Here()))
    {
      hide P.ReconcileLocked, P.RecordHistory;
      var runStart := Now();
      var res :- ReconcileLocked(opts);
      if !opts.dryRun {
        var _ :- RecordHistory(res, runStart);
      }
      r := Back(res);
    }
  }

  ghost function Joined(died: bool, fault: P.Fault, s: P.Step<P.Fault>): P.Step<P.Fault> {
    if died || s.Crashed? then P.Crashed(s.w) else P.Done(s.w, P.JoinFaults(fault, s.value))
  }

  /** Any sequence of processes, pause commands and moved worktrees, one after the other. */
  method Operate(site: P.Site, ghost start: P.World, state: State, head: Commit, projects: set<Name>,
      turns: seq<P.Turn>)
    returns (disk: State, tree: Commit, running: set<Name>, ghost w: P.World)
    requires state == start.disk && head == start.tree && projects == start.running
    ensures w == P.AfterAll(site, start, turns)
    ensures var end := P.AfterAll(site, start, turns); disk == end.disk && tree == end.tree && running == end.running
  {
    disk, tree, running, w := state, head, projects, start;
    for i := 0 to |turns|
      invariant disk == w.disk && tree == w.tree && running == w.running
      invariant P.AfterAll(site, start, turns) == P.AfterAll(site, w, turns[i..])
    {
      assert turns[i..][1..] == turns[i + 1..];
      match turns[i]
      case SetPause(at, until) =>
        disk := disk.(pausedAt := at, pausedUntil := until);
        w := w.(disk := disk);
      case Drift(commit) =>
        tree := commit;
        w := w.(tree := commit);
      case Attempt(opts, env) =>
        var process := new Reconciler(site, env, w, disk, tree, running);
        var _ := process.Reconcile(opts);
        disk, tree, running, w := process.disk, process.tree, process.running, process.Here();
    }
  }
}
