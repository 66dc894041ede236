/** One run of Reconcile as a function of the world before it and of everything the outside may answer.

    A run is a chain of calls. Each call asks the environment for a reply, and any reply may be a crash, which
    ends the run on the spot: the world a crashed run leaves is a world some crash point leaves. A function that
    may crash returns a Step; `:-` passes a crash on. */
module Protocol {
  import opened Records
  import opened Stacks

  const MAX_PREFLIGHT_BLOCKS := 3
  const MAX_RECOVERY_ATTEMPTS := 3
  const RECOVERY_ATTEMPT_GRACE := 900

  datatype Options = Options(dryRun: bool, force: bool)

  /** What does not change from run to run. */
  datatype Site = Site(stacksAt: Commit -> seq<Stack>, watchSeconds: nat)

  datatype Reply = Crash | Ok | Fail(infra: bool)

  /** How filterChanged judges one stack against the changed files. */
  datatype Weight = Touched | Untouched | Undetermined

  /** The environment of one run; the nat is the number of the call in that run.
      `lands`: a save that failed, or a save or down that crashed, took effect nevertheless; a save can fail after
      its rename (internal/state/state.go:124-129).
      `cancels`: the context is cancelled during this call. `debris`: the worktree a failed checkout leaves.
      `sound`: the verdict of a health call. */
  datatype Env = Env(
    reply: nat -> Reply,
    lands: nat -> bool,
    cancels: nat -> bool,
    debris: nat -> Commit,
    sound: nat -> bool,
    clock: nat -> nat,
    branch: Commit,
    diff: seq<Path>,
    windowClosed: bool,
    relevant: bool,
    weigh: Stack -> Weight)

  /** Why a stack of the commit being applied must come up, or need not: no changed file reaches it, it could not be
      weighed, or the pending record of the same commit does not name it. */
  datatype Need = Required | Unchanged | Unweighed | Aside

  /** What has been done since the last checkout. `needs`: for each stack found there, by name, why it must come up or
      not. `former`: the stacks found at the worktree before it, and the last healthy ones. */
  datatype Evidence = Evidence(
    up: set<Name>,
    healthy: set<Name>,
    down: set<Name>,
    needs: set<(Name, Need)>,
    former: set<Name>)

  const NOTHING := Evidence({}, {}, {}, {}, {})

  datatype Event =
    | Saved(before: State, after: State, tree: Commit, seen: Evidence)
    | CheckedOut(commit: Commit, ok: bool)
    | Pulled(name: Name, durable: State)
    | Upped(name: Name, tree: Commit, loaded: State, durable: State, ok: bool)
    | Downed(name: Name, durable: State, ok: bool)

  /** `disk` is the durable record and `mem` the run's own copy. `tree` is the commit in the worktree. `running`
      holds every project that may have containers. `dirty` holds every project that an Up of a commit other than
      the rollback target has touched, with that commit, until it is brought up at the target or torn down. */
  datatype World = World(
    disk: State,
    mem: State,
    loaded: State,
    tree: Commit,
    running: set<Name>,
    dirty: map<Name, Commit>,
    seen: Evidence,
    log: seq<Event>,
    tick: nat,
    cancelled: bool)

  datatype Step<T> = Crashed(w: World) | Done(w: World, value: T)
  {
    predicate IsFailure() {
      Crashed?
    }

    function PropagateFailure<U>(): Step<U>
      requires IsFailure()
    {
      Crashed(w)
    }

    function Extract(): (World, T)
      requires !IsFailure()
    {
      (w, value)
    }
  }

  datatype Fault = NoFault | Fault(infra: bool)

  datatype Result = Result(
    changed: bool,
    skipped: bool,
    applied: bool,
    reverted: bool,
    degraded: bool,
    oldCommit: Commit,
    newCommit: Commit,
    rolledBackTo: Commit,
    files: seq<Path>,
    failed: bool)

  const BLANK := Result(false, false, false, false, false, NO_COMMIT, NO_COMMIT, NO_COMMIT, [], false)

  /*** Calls ***/

  function Tick(w: World, env: Env): World {
    w.(tick := w.tick + 1, cancelled := w.cancelled || env.cancels(w.tick))
  }

  /** A clock never reads the zero time. */
  function Now(w: World, env: Env): (t: Instant)
    ensures t > 0
  {
    env.clock(w.tick) + 1
  }

  function FaultOf(r: Reply): Fault
    requires !r.Crash?
  {
    if r.Ok? then NoFault else Fault(r.infra)
  }

  /** A call that changes nothing durable. */
  function Ask(w: World, env: Env): Step<Fault> {
    var r := env.reply(w.tick);
    if r.Crash? then Crashed(Tick(w, env)) else Done(Tick(w, env), FaultOf(r))
  }

  /** The save's effect. Making a commit the rollback target settles the projects last touched by its own Up. */
  function Written(w: World, next: State): World {
    w.(disk := next,
       dirty := if next.lastHealthy == w.disk.lastHealthy then w.dirty
                else map n | n in w.dirty && w.dirty[n] != next.lastHealthy :: w.dirty[n],
       log := w.log + [Saved(w.disk, next, w.tree, w.seen)])
  }

  function Save(w: World, env: Env, next: State): Step<bool> {
    var r := env.reply(w.tick);
    var w' := if r.Ok? || env.lands(w.tick) then Written(Tick(w, env), next) else Tick(w, env);
    if r.Crash? then Crashed(w') else Done(w', r.Ok?)
  }

  /** `next := *st`, save it, and adopt it only when the save succeeded. */
  function SaveNext(w: World, env: Env, next: State): Step<bool> {
    var (w1, ok) :- Save(w, env, next);
    Done(if ok then w1.(mem := next) else w1, ok)
  }

  function Checkout(w: World, env: Env, commit: Commit): Step<Fault> {
    if commit == NO_COMMIT then
      Done(w, Fault(false))
    else
      var r := env.reply(w.tick);
      var w' := Tick(w, env).(tree := if r.Ok? then commit else env.debris(w.tick), seen := NOTHING,
                              log := w.log + [CheckedOut(commit, r.Ok?)]);
      if r.Crash? then Crashed(w') else Done(w', FaultOf(r))
  }

  /** Any Up may have started containers; a successful one at the rollback target makes the project clean. */
  function Started(w: World, name: Name, ok: bool): World {
    w.(running := w.running + {name},
       dirty := if w.tree != w.disk.lastHealthy then w.dirty[name := w.tree]
                else if ok then w.dirty - {name}
                else w.dirty,
       seen := if ok then w.seen.(up := w.seen.up + {name}) else w.seen,
       log := w.log + [Upped(name, w.tree, w.loaded, w.disk, ok)])
  }

  function Up(w: World, env: Env, name: Name): Step<Fault> {
    var r := env.reply(w.tick);
    var w' := Started(Tick(w, env), name, r.Ok?);
    if r.Crash? then Crashed(w') else Done(w', FaultOf(r))
  }

  function Stopped(w: World, name: Name, ok: bool): World {
    if ok then
      w.(running := w.running - {name}, dirty := w.dirty - {name}, seen := w.seen.(down := w.seen.down + {name}),
         log := w.log + [Downed(name, w.disk, true)])
    else
      w.(log := w.log + [Downed(name, w.disk, false)])
  }

  function Pull(w: World, env: Env, name: Name): Step<Fault> {
    Ask(w.(log := w.log + [Pulled(name, w.disk)]), env)
  }

  /** stacksAllowingEmpty at the current worktree. */
  function Discover(site: Site, env: Env, w: World): Step<(Fault, seq<Stack>)> {
    var (w1, f) :- Ask(w, env);
    Done(w1, (f, if f.NoFault? then site.stacksAt(w1.tree) else []))
  }

  datatype Fetched = FetchFailed | Fetched(changed: bool, head: Commit, tip: Commit)

  /** git.Fetch: a fetch, then HEAD against the branch; a moved branch needs two well-formed commit ids. */
  function Fetch(w: World, env: Env): Step<Fetched> {
    var (w1, f) :- Ask(w, env);
    if f.Fault? || (w1.tree != env.branch && (w1.tree == NO_COMMIT || env.branch == NO_COMMIT)) then
      Done(w1, FetchFailed)
    else
      Done(w1, Fetched(w1.tree != env.branch, w1.tree, env.branch))
  }

  /** A snapshot or watch of a set of projects: fails, or gives a verdict. */
  function Judge(w: World, env: Env): Step<(Fault, bool)> {
    var (w1, f) :- Ask(w, env);
    Done(w1, (f, env.sound(w.tick)))
  }

  function Watch(w: World, env: Env, names: seq<Name>): Step<(Fault, bool)> {
    if names == [] then Done(w, (NoFault, true))
    else
      var (w1, v) :- Judge(w, env);
      Done(if v.0.NoFault? && v.1 then w1.(seen := w1.seen.(healthy := w1.seen.healthy + set n | n in names))
          else w1, v)
  }

  /** Load each project and check its env files, stopping at the first failure. */
  function LoadAll(w: World, env: Env, names: seq<Name>): Step<Fault>
    decreases |names|
  {
    if names == [] then Done(w, NoFault)
    else
      var (w1, f) :- Ask(w, env);
      if f.Fault? then Done(w1, f) else
      var (w2, g) :- Ask(w1, env);
      if g.Fault? then Done(w2, g) else LoadAll(w2, env, names[1..])
  }

  function PullAll(w: World, env: Env, names: seq<Name>): Step<Fault>
    decreases |names|
  {
    if names == [] then Done(w, NoFault)
    else
      var (w1, f) :- Pull(w, env, names[0]);
      if f.Fault? then Done(w1, f) else PullAll(w1, env, names[1..])
  }

  function UpAll(w: World, env: Env, names: seq<Name>): Step<Fault>
    decreases |names|
  {
    if names == [] then Done(w, NoFault)
    else
      var (w1, f) :- Up(w, env, names[0]);
      if f.Fault? then Done(w1, f) else UpAll(w1, env, names[1..])
  }

  function JoinFaults(f: Fault, g: Fault): Fault {
    if f.NoFault? then g else if g.NoFault? then f else Fault(f.infra || g.infra)
  }

  /** tearDownStacks attempts every stack, several at a time, so a crash leaves any subset of them torn down. */
  function TearDown(w: World, env: Env, names: seq<Name>): Step<Fault>
    decreases |names|
  {
    if names == [] then Done(w, NoFault)
    else
      var r := env.reply(w.tick);
      var rest := TearDown(Stopped(Tick(w, env), names[0], r.Ok? || (r.Crash? && env.lands(w.tick))), env, names[1..]);
      if r.Crash? || rest.Crashed? then Crashed(rest.w)
      else Done(rest.w, JoinFaults(FaultOf(r), rest.value))
  }

  /*** What each save writes ***/

  function OutcomeOf(s: State, verdict: Verdict, commit: Commit, now: Instant): State {
    s.(lastResult := verdict, lastAttemptAt := now,
       lastAttempt := if commit != NO_COMMIT then commit else s.lastAttempt)
  }

  function CheckoutOf(s: State, commit: Commit, now: Instant): State {
    s.(lastCheckout := commit, lastAttempt := commit, lastAttemptAt := now, lastResult := Success)
  }

  function NotPending(s: State): State {
    s.(pendingCommit := NO_COMMIT, pendingSince := 0, pendingAttempts := 0, pendingStacks := [], pendingRevert := false)
  }

  function PromotedOf(s: State, commit: Commit, stacks: seq<Name>, now: Instant): State {
    NotPending(s).ForgetAllFailed().(lastHealthy := commit, lastHealthyStacks := stacks, lastCheckout := commit,
      preflightBlocks := 0, lastAttempt := commit, lastAttemptAt := now, lastResult := Success)
  }

  function PendingOf(s: State, commit: Commit, stacks: seq<Name>, now: Instant): State {
    s.(pendingAttempts := if s.pendingCommit != commit then 0 else s.pendingAttempts,
       pendingSince := if s.pendingCommit != commit || s.pendingSince == 0 then now else s.pendingSince,
       pendingCommit := commit, pendingStacks := stacks, lastCheckout := commit, lastAttempt := commit,
       lastAttemptAt := now)
  }

  function RevertedOf(s: State, failedCommit: Commit, target: Commit, now: Instant): State {
    var next := NotPending(s).(lastCheckout := target, lastAttemptAt := now, lastResult := Reverted);
    if failedCommit != NO_COMMIT then next.(lastAttempt := failedCommit, preflightBlocks := 0) else next
  }

  function InterruptedOf(s: State, failedCommit: Commit, stacks: seq<Name>, now: Instant): State {
    var next := s.(pendingRevert := true, pendingCommit := failedCommit,
                   pendingStacks := if stacks != [] then stacks else s.pendingStacks,
                   pendingSince := if s.pendingSince == 0 then now else s.pendingSince,
                   lastAttemptAt := now, lastResult := FailedApply);
    if failedCommit != NO_COMMIT then next.MarkFailed(failedCommit).(lastAttempt := failedCommit) else next
  }

  function DegradedOf(s: State, failedCommit: Commit, now: Instant): State {
    var next := NotPending(s).(lastResult := Degraded, lastAttemptAt := now);
    if failedCommit != NO_COMMIT then next.MarkFailed(failedCommit).(lastAttempt := failedCommit) else next
  }

  function AttemptOf(s: State): State {
    s.(pendingAttempts := s.pendingAttempts + 1)
  }

  /*** revert.go ***/

  function Degrade(w: World, env: Env, failedCommit: Commit, target: Commit): Step<Result> {
    var (w1, _) :- SaveNext(w, env, DegradedOf(w.mem, failedCommit, Now(w, env)));
    Done(w1, BLANK.(degraded := true, rolledBackTo := target, failed := true))
  }

  function RevertInterrupted(w: World, env: Env, failedCommit: Commit, target: Commit,
      stacks: seq<Stack>): Step<Result> {
    var (w1, _) :- SaveNext(w, env, InterruptedOf(w.mem, failedCommit, Names(stacks), Now(w, env)));
    Done(w1, BLANK.(rolledBackTo := target, failed := true))
  }

  function RevertFailed(w: World, env: Env, failedCommit: Commit, target: Commit, stacks: seq<Stack>,
      infra: bool): Step<Result> {
    if w.cancelled || infra then RevertInterrupted(w, env, failedCommit, target, stacks)
    else Degrade(w, env, failedCommit, target)
  }

  function DoRevert(site: Site, env: Env, w: World, stacks: seq<Stack>, failedCommit: Commit): Step<Result> {
    var target := w.mem.lastHealthy;
    if target == NO_COMMIT then Degrade(w, env, failedCommit, NO_COMMIT) else
    var (w1, f) :- Checkout(w, env, target);
    if f.Fault? then RevertFailed(w1, env, failedCommit, target, stacks, f.infra) else
    var (w2, d) :- Discover(site, env, w1.(mem := w1.mem.(lastCheckout := target)));
    if d.0.Fault? then RevertFailed(w2, env, failedCommit, target, stacks, d.0.infra) else
    var (w3, g) :- TearDown(w2, env, Names(Vanished(stacks, d.1)));
    if g.Fault? then RevertFailed(w3, env, failedCommit, target, stacks, g.infra) else
    RestoreStacks(w3, env, Intersect(d.1, stacks), failedCommit, target)
  }

  /** The second part of doRevert: bring the surviving stacks up at the rollback target. */
  function RestoreStacks(w: World, env: Env, stacks: seq<Stack>, failedCommit: Commit, target: Commit): Step<Result> {
    var (w1, f) :- LoadAll(w, env, Names(stacks));
    if f.Fault? then RevertFailed(w1, env, failedCommit, target, stacks, f.infra) else
    var (w2, g) :- UpAll(w1, env, Names(stacks));
    if g.Fault? then RevertFailed(w2, env, failedCommit, target, stacks, g.infra) else
    FinishRevert(w2, env, stacks, failedCommit, target)
  }

  function FinishRevert(w: World, env: Env, stacks: seq<Stack>, failedCommit: Commit, target: Commit): Step<Result> {
    var (w1, v) :- Watch(w, env, Names(stacks));
    if v.0.Fault? then RevertInterrupted(w1, env, failedCommit, target, stacks)
    else if !v.1 then Degrade(w1, env, failedCommit, target)
    else
      var (w2, _) :- SaveNext(w1, env, RevertedOf(w1.mem, failedCommit, target, Now(w1, env)));
      Done(w2, BLANK.(reverted := true, rolledBackTo := target, failed := true))
  }

  /*** apply.go ***/

  function RecordOutcome(w: World, env: Env, verdict: Verdict, commit: Commit): Step<()> {
    var (w1, _) :- SaveNext(w, env, OutcomeOf(w.mem, verdict, commit, Now(w, env)));
    Done(w1, ())
  }

  /** applyIncomplete, applyInterrupted and the tail of abortBeforeUp: report, and record unless shutting down. */
  function Incomplete(w: World, env: Env, r: Result): Step<Result> {
    if w.cancelled then Done(w, r.(failed := true))
    else
      var (w1, _) :- RecordOutcome(w, env, FailedApply, r.newCommit);
      Done(w1, r.(failed := true))
  }

  function AbortBeforeUp(w: World, env: Env, r: Result): Step<Result> {
    if r.oldCommit == NO_COMMIT then Incomplete(w, env, r)
    else
      var (w1, _) :- Checkout(w, env, r.oldCommit);
      Incomplete(w1, env, r)
  }

  function AbortApply(w: World, env: Env, r: Result, infra: bool): Step<Result> {
    AbortBeforeUp(if infra then w else w.(mem := w.mem.MarkFailed(r.newCommit)), env, r)
  }

  function FailAndRevert(site: Site, env: Env, w: World, stacks: seq<Stack>, r: Result): Step<Result> {
    var failed := w.mem.MarkFailed(r.newCommit).(lastResult := FailedApply);
    var (w1, _) :- Save(w.(mem := failed), env, failed);
    var (w2, v) :- DoRevert(site, env, w1, stacks, r.newCommit);
    Done(w2, r.(reverted := v.reverted, degraded := v.degraded, rolledBackTo := v.rolledBackTo, failed := v.failed))
  }

  function Promote(site: Site, env: Env, w: World, r: Result, stacks: seq<Stack>): Step<Result> {
    var (w1, ok) :- SaveNext(w, env, PromotedOf(w.mem, r.newCommit, Names(stacks), Now(w, env)));
    Done(w1, r.(failed := !ok))
  }

  function TearDownAndPromote(site: Site, env: Env, w: World, r: Result, stacks: seq<Stack>,
      vanished: seq<Stack>): Step<Result> {
    var (w1, f) :- TearDown(w, env, Names(vanished));
    if f.Fault? then Incomplete(w1, env, r) else Promote(site, env, w1, r, stacks)
  }

  /** filterChanged, with each stack's weight given. */
  function Weighed(env: Env, stacks: seq<Stack>): (r: (seq<Stack>, bool))
    ensures NameSet(r.0) <= NameSet(stacks)
  {
    if stacks == [] then ([], false)
    else
      var rest, last := stacks[..|stacks| - 1], stacks[|stacks| - 1];
      var (changed, unsure) := Weighed(env, rest);
      assert stacks == rest + [last];
      NameSetConcat(rest, [last]);
      NameSetConcat(changed, [last]);
      (if env.weigh(last).Touched? then changed + [last] else changed, unsure || env.weigh(last).Undetermined?)
  }

  /** The stacks it keeps are the touched ones, and it is unsure exactly when one cannot be weighed. */
  lemma {:induction false} WeighedMeans(env: Env, stacks: seq<Stack>)
    ensures forall s :: s in Weighed(env, stacks).0 <==> s in stacks && env.weigh(s).Touched?
    ensures Weighed(env, stacks).1 <==> exists s :: s in stacks && env.weigh(s).Undetermined?
  {
    if stacks != [] {
      WeighedMeans(env, stacks[..|stacks| - 1]);
      assert stacks == stacks[..|stacks| - 1] + [stacks[|stacks| - 1]];
    }
  }

  /** Which of the stacks at the commit to bring up, and whether one could not be weighed. */
  function Chosen(env: Env, mem: State, r: Result, stacks: seq<Stack>, pendingStacks: seq<Name>): (seq<Stack>, bool) {
    if mem.lastHealthy == NO_COMMIT then (stacks, false)
    else if r.files != [] then Weighed(env, stacks)
    else (Restrict(stacks, pendingStacks), false)
  }

  /** Why this stack must come up or not, stack by stack: on a first deploy all must, a change brings its own, and a
      resumed apply those its record names. */
  function NeedOf(env: Env, mem: State, r: Result, pendingStacks: seq<Name>, s: Stack): Need {
    if mem.lastHealthy == NO_COMMIT then Required
    else if r.files != [] then
      match env.weigh(s)
      case Touched => Required
      case Untouched => Unchanged
      case Undetermined => Unweighed
    else if pendingStacks == [] || s.project in pendingStacks then Required
    else Aside
  }

  function NeedsOf(env: Env, mem: State, r: Result, stacks: seq<Stack>, pendingStacks: seq<Name>): set<(Name, Need)> {
    set s | s in stacks :: (s.project, NeedOf(env, mem, r, pendingStacks, s))
  }

  function ApplyAndWatch(site: Site, env: Env, w: World, r: Result, previous: seq<Stack>,
      pendingStacks: seq<Name>): Step<Result> {
    var (w1, f) :- Checkout(w, env, r.newCommit);
    if f.Fault? then AbortBeforeUp(w1, env, r) else
    var (w2, d) :- Discover(site, env, w1);
    if d.0.Fault? then AbortApply(w2, env, r, d.0.infra) else
    var (changed, unsure) := Chosen(env, w2.mem, r, d.1, pendingStacks);
    var w3 := w2.(seen := w2.seen.(needs := NeedsOf(env, w2.mem, r, d.1, pendingStacks), former := NameSet(previous)));
    if changed == [] then ApplyNothing(site, env, w3, r, d.1, Vanished(previous, d.1), unsure)
    else ApplyChanged(site, env, w3, r, d.1, changed, Vanished(previous, d.1))
  }

  function ApplyNothing(site: Site, env: Env, w: World, r: Result, stacks: seq<Stack>, vanished: seq<Stack>,
      unsure: bool): Step<Result> {
    var (w1, f) :- TearDown(w, env, Names(vanished));
    if f.Fault? then Incomplete(w1, env, r)
    else if unsure then Done(w1, r.(skipped := true))
    else Promote(site, env, w1, r.(skipped := true), stacks)
  }

  function ApplyChanged(site: Site, env: Env, w: World, r: Result, stacks: seq<Stack>, changed: seq<Stack>,
      vanished: seq<Stack>): Step<Result> {
    var (w1, f) :- LoadAll(w, env, Names(changed));
    if f.Fault? then AbortApply(w1, env, r, f.infra) else
    var (w2, g) :- PullAll(w1, env, Names(changed));
    if g.Fault? then AbortApply(w2, env, r, g.infra) else
    var (w3, ok) :- SaveNext(w2, env, PendingOf(w2.mem, r.newCommit, Names(changed), Now(w2, env)));
    if !ok then AbortBeforeUp(w3, env, r) else UpAndWatch(site, env, w3, r, stacks, changed, vanished)
  }

  function UpAndWatch(site: Site, env: Env, w: World, r: Result, stacks: seq<Stack>, changed: seq<Stack>,
      vanished: seq<Stack>): Step<Result> {
    var (w1, f) :- UpAll(w, env, Names(changed));
    if f.Fault? then
      (if w1.cancelled then Done(w1, r.(failed := true))
       else if f.infra then Incomplete(w1, env, r)
       else FailAndRevert(site, env, w1, changed, r)) else
    WatchAndSettle(site, env, w1, r.(applied := true), stacks, changed, vanished)
  }

  function WatchAndSettle(site: Site, env: Env, w: World, r: Result, stacks: seq<Stack>, changed: seq<Stack>,
      vanished: seq<Stack>): Step<Result> {
    var (w1, v) :- Watch(w, env, Names(changed));
    if v.0.Fault? then Incomplete(w1, env, r)
    else if v.1 then TearDownAndPromote(site, env, w1, r, stacks, vanished)
    else FailAndRevert(site, env, w1, changed, r)
  }

  function AdvanceCheckout(w: World, env: Env, r: Result): Step<Result> {
    var (w1, f) :- Checkout(w, env, r.newCommit);
    if f.Fault? then AbortBeforeUp(w1, env, r) else
    var (w2, ok) :- SaveNext(w1, env, CheckoutOf(w1.mem, r.newCommit, Now(w1, env)));
    Done(w2, r.(failed := !ok))
  }

  function ClearBlocks(w: World, env: Env): Step<()> {
    if w.mem.preflightBlocks == 0 then Done(w, ())
    else
      var (w1, _) :- SaveNext(w, env, w.mem.(preflightBlocks := 0));
      Done(w1, ())
  }

  function Relabel(s: Step<Result>, r: Result): (s': Step<Result>)
    ensures s'.w == s.w
  {
    var (w, v) :- s;
    Done(w, v.(changed := r.changed, oldCommit := r.oldCommit, newCommit := r.newCommit, files := r.files))
  }

  function PreflightBlocked(site: Site, env: Env, force: bool, w: World, r: Result,
      previous: seq<Stack>): Step<Result> {
    CountBlock(site, env, if force then w.(mem := w.mem.(preflightBlocks := 0)) else w, r, previous)
  }

  function CountBlock(site: Site, env: Env, w: World, r: Result, previous: seq<Stack>): Step<Result> {
    if w.mem.preflightBlocks >= MAX_PREFLIGHT_BLOCKS then
      Relabel(Degrade(w, env, NO_COMMIT, w.mem.lastHealthy), r)
    else
      var (w1, _) :- SaveNext(w, env, w.mem.(preflightBlocks := w.mem.preflightBlocks + 1));
      Relabel(DoRevert(site, env, w1, previous, NO_COMMIT), r)
  }

  predicate Drifted(s: State, head: Commit) {
    head != NO_COMMIT && head != s.ExpectedCheckout()
  }

  function RunNormal(site: Site, env: Env, opts: Options, w: World): Step<Result> {
    var (w1, g) :- Fetch(w, env);
    if g.FetchFailed? then
      (if w1.cancelled then Done(w1, BLANK.(failed := true)) else
       var (w2, _) :- RecordOutcome(w1, env, FailedGit, NO_COMMIT);
       Done(w2, BLANK.(failed := true))) else
    var r := BLANK.(changed := g.changed, oldCommit := g.head, newCommit := g.tip, files := if g.changed then env.diff
        else []);
    if !g.changed && !Drifted(w1.mem, g.head) then Done(w1, r)
    else if w1.mem.IsKnownBad(g.tip) && !opts.force then
      var (w2, _) :- RecordOutcome(w1, env, SkippedKnownBad, g.tip);
      Done(w2, r.(skipped := true))
    else if env.windowClosed && g.changed then Done(w1, r.(skipped := true))
    else if g.changed && w1.mem.lastHealthy != NO_COMMIT && !env.relevant then
      AdvanceCheckout(w1, env, r.(skipped := true))
    else Gate(site, env, opts, w1, r.(changed := true))
  }

  /** The pre-flight gate, on the stacks found at the current worktree or, failing that, on the last healthy set. */
  function Gate(site: Site, env: Env, opts: Options, w: World, r: Result): Step<Result> {
    var (w1, d) :- Discover(site, env, w);
    if d.0.Fault? && w1.cancelled then Done(w1, r.(failed := true)) else
    var previous := if d.0.Fault? then Deployed(w1.mem.lastHealthyStacks, []) else d.1;
    var (w2, v) :- Judge(w1, env);
    if v.0.Fault? then
      (if w2.cancelled then Done(w2, r.(failed := true)) else
       var (w3, _) :- RecordOutcome(w2, env, FailedPreflight, r.newCommit);
       Done(w3, r.(failed := true)))
    else if opts.dryRun then Done(w2, if v.1 then r else r.(skipped := true, failed := true))
    else if !v.1 then PreflightBlocked(site, env, opts.force, w2, r, previous)
    else PassGate(site, env, w2, r, previous)
  }

  function PassGate(site: Site, env: Env, w: World, r: Result, previous: seq<Stack>): Step<Result> {
    var (w1, _) :- ClearBlocks(w, env);
    ApplyAndWatch(site, env, w1, r, Deployed(w1.mem.lastHealthyStacks, previous), [])
  }

  /*** recovery.go ***/

  function SupersedingCommit(w: World, env: Env, force: bool, pending: Commit): Step<Commit> {
    var (w1, g) :- Fetch(w, env);
    if g.FetchFailed? || g.tip == NO_COMMIT || g.tip == pending || (w1.mem.IsKnownBad(g.tip) && !force) then
      Done(w1, NO_COMMIT)
    else
      Done(w1, g.tip)
  }

  function RecoveryBudget(site: Site): nat {
    MAX_RECOVERY_ATTEMPTS * (site.watchSeconds + RECOVERY_ATTEMPT_GRACE)
  }

  predicate RecoveryExpired(site: Site, s: State, now: Instant) {
    s.pendingSince != 0 && now > s.pendingSince + RecoveryBudget(site)
  }

  function RecoverFromCrash(site: Site, env: Env, opts: Options, w: World): Step<Result> {
    var commit := w.mem.pendingCommit;
    if opts.dryRun then Done(w, BLANK.(newCommit := commit)) else
    var w0 := if opts.force then w.(mem := w.mem.(pendingAttempts := 0, pendingSince := Now(w, env))) else w;
    var (w1, superseding) :- if w0.mem.RevertInProgress() then Done(w0, NO_COMMIT)
        else SupersedingCommit(w0, env, opts.force, commit);
    if superseding == NO_COMMIT
       && (w1.mem.pendingAttempts >= MAX_RECOVERY_ATTEMPTS || RecoveryExpired(site, w1.mem, Now(w1, env))) then
      Degrade(w1, env, commit, NO_COMMIT)
    else Resume(site, env, w1, commit, superseding)
  }

  /** Once the attempt is within its limits: look at the worktree and the live stacks, and count it. */
  function Resume(site: Site, env: Env, w: World, commit: Commit, superseding: Commit): Step<Result> {
    var (w1, d) :- Discover(site, env, w);
    if d.0.Fault? then Done(w1, BLANK.(newCommit := commit, failed := true)) else
    var (w2, v) :- if w1.mem.RevertInProgress() then Done(w1, (NoFault, false)) else Judge(w1, env);
    if v.0.Fault? then Done(w2, BLANK.(newCommit := commit, failed := true)) else
    var (w3, ok) :- SaveNext(w2, env, AttemptOf(w2.mem));
    if !ok then Done(w3, BLANK.(newCommit := commit, failed := true)) else
    Resumed(site, env, w3, commit, superseding, d.1, v.1)
  }

  /** With the attempt counted: revert, or apply the superseding or the pending commit. */
  function Resumed(site: Site, env: Env, w: World, commit: Commit, superseding: Commit, found: seq<Stack>,
      healthy: bool): Step<Result> {
    if !healthy then
      var (w1, r) :- DoRevert(site, env, w, Restrict(found, w.mem.pendingStacks), commit);
      Done(w1, r.(newCommit := commit))
    else if superseding != NO_COMMIT then
      ApplyAndWatch(site, env, w, BLANK.(changed := true, newCommit := superseding, oldCommit := commit),
                    Deployed(w.mem.lastHealthyStacks, found), [])
    else
      ApplyAndWatch(site, env, w, BLANK.(newCommit := commit, oldCommit := w.mem.lastHealthy),
                    Deployed(w.mem.lastHealthyStacks, found), w.mem.pendingStacks)
  }

  /*** reconcile.go ***/

  function ReconcileLocked(site: Site, env: Env, opts: Options, w: World): Step<Result> {
    var (w1, f) :- Ask(w, env);
    if f.Fault? then Done(w1, BLANK.(failed := true)) else
    var w2 := w1.(mem := w1.disk, loaded := w1.disk);
    if w2.mem.Paused(Now(w2, env)) then
      var (w3, g) :- Fetch(w2, env);
      Done(w3, if g.FetchFailed? then BLANK.(skipped := true)
               else BLANK.(skipped := true, changed := g.changed, oldCommit := g.head, newCommit := g.tip))
    else if w2.mem.lastResult == Degraded && !opts.force then
      Done(w2, BLANK.(degraded := true, newCommit := w2.mem.lastAttempt, failed := true))
    else if w2.mem.Pending() then RecoverFromCrash(site, env, opts, w2)
    else RunNormal(site, env, opts, w2)
  }

  function RecordHistory(w: World, env: Env, r: Result, runStart: Instant): Step<()> {
    if !r.applied && !r.reverted && !r.degraded && !r.failed then Done(w, ()) else
    var (w1, f) :- Ask(w, env);
    if f.Fault? || w1.disk.lastAttemptAt < runStart || w1.disk.lastResult == SkippedKnownBad then Done(w1, ()) else
    var (w2, _) :- Save(w1, env, w1.disk.Record(Deployment(w1.disk.lastAttemptAt, r.newCommit, w1.disk.lastResult,
        r.rolledBackTo, 0)));
    Done(w2, ())
  }

  function Reconcile(site: Site, env: Env, opts: Options, w: World): Step<Result> {
    var runStart := Now(w, env);
    var (w1, r) :- ReconcileLocked(site, env, opts, w);
    if opts.dryRun then Done(w1, r) else
    var (w2, _) :- RecordHistory(w1, env, r, runStart);
    Done(w2, r)
  }

  /*** Sequences of runs ***/

  /** What may happen between two moments at rest: a run, a pause or resume command, or somebody moving HEAD. */
  datatype Turn =
    | Attempt(opts: Options, env: Env)
    | SetPause(at: Instant, until: Instant)
    | Drift(tree: Commit)

  /** A new process holds no record of its own until it has loaded one. */
  function Begin(w: World): World {
    w.(mem := w.disk, tick := 0, cancelled := false, seen := NOTHING)
  }

  function After(site: Site, w: World, t: Turn): World {
    match t
    case Attempt(opts, env) => Reconcile(site, env, opts, Begin(w)).w
    case SetPause(at, until) => w.(disk := w.disk.(pausedAt := at, pausedUntil := until))
    case Drift(tree) => w.(tree := tree)
  }

  function AfterAll(site: Site, w: World, turns: seq<Turn>): World
    decreases |turns|
  {
    if turns == [] then w else AfterAll(site, After(site, w, turns[0]), turns[1..])
  }

  function Fresh(tree: Commit): World {
    World(New(), New(), New(), tree, {}, map[], NOTHING, [], 0, false)
  }
}
