/** watchStacks (internal/reconcile/watch.go): one watch per stack, at most sixteen at a time, stopped early by a
    failure. Every interleaving of the launching loop and the workers is a sequence of steps. */
module WatchPool {
  import opened Wrappers

  const MAX_CONCURRENT_WATCHES := 16

  /** What health.Watch returns. Erred(true) is context.Canceled. */
  datatype Watched = Verdict(healthy: bool) | Erred(cancelled: bool)

  /** A stack's worker: not reached by the loop yet, passed over because the context was done, watching, and then the
      statements after the watch, one by one. */
  datatype Phase =
    | Idle
    | Passed(error: Watched)
    | Watching
    | Returned(result: Watched)
    | Wrote(result: Watched)
    | Signalled(result: Watched)
    | Finished(result: Watched)
  {
    predicate HoldsToken() {
      Watching? || Returned? || Wrote? || Signalled?
    }

    predicate Over() {
      Passed? || Finished?
    }

    /** What the outcomes slice holds for it. */
    function Recorded(): Option<Watched> {
      match this
      case Passed(e) => Some(e)
      case Wrote(r) => Some(r)
      case Signalled(r) => Some(r)
      case Finished(r) => Some(r)
      case _ => None
    }
  }

  /** `held`: tokens in the semaphore. `stopped`: the watches' own context was cancelled; `gone`: the caller's was. */
  datatype Pool = Pool(next: nat, phases: seq<Phase>, held: nat, outcomes: seq<Option<Watched>>, stopped: bool,
      gone: bool)
  {
    predicate Done() {
      stopped || gone
    }

    predicate Joined() {
      next == |phases| && forall i :: 0 <= i < |phases| ==> phases[i].Over()
    }
  }

  function Start(n: nat): Pool {
    Pool(0, seq(n, _ => Idle), 0, seq(n, _ => None), false, false)
  }

  datatype Step =
    | Launch
    | Pass(error: Watched)
    | Return(worker: nat, result: Watched)
    | Write(worker: nat)
    | Signal(worker: nat)
    | Release(worker: nat)
    | CallerGone

  /** A watch, and the loop, report cancellation only when the context they share is done. */
  predicate Enabled(s: Pool, step: Step)
    requires |s.outcomes| == |s.phases|
  {
    match step
    case Launch => s.next < |s.phases| && s.held < MAX_CONCURRENT_WATCHES
    case Pass(e) => s.next < |s.phases| && s.Done() && e.Erred? && (!s.gone ==> e.cancelled)
    case Return(i, r) => i < |s.phases| && s.phases[i].Watching? && (r == Erred(true) ==> s.Done())
    case Write(i) => i < |s.phases| && s.phases[i].Returned?
    case Signal(i) => i < |s.phases| && s.phases[i].Wrote?
    case Release(i) => i < |s.phases| && s.phases[i].Signalled?
    case CallerGone => !s.gone
  }

  function Do(s: Pool, step: Step): (r: Pool)
    requires |s.outcomes| == |s.phases| && Enabled(s, step)
    ensures |r.outcomes| == |r.phases| == |s.phases|
  {
    match step
    case Launch => s.(next := s.next + 1, held := s.held + 1, phases := s.phases[s.next := Watching])
    case Pass(e) => s.(next := s.next + 1, phases := s.phases[s.next := Passed(e)],
        outcomes := s.outcomes[s.next := Some(e)])
    case Return(i, r) => s.(phases := s.phases[i := Returned(r)])
    case Write(i) => s.(phases := s.phases[i := Wrote(s.phases[i].result)],
        outcomes := s.outcomes[i := Some(s.phases[i].result)])
    case Signal(i) => s.(phases := s.phases[i := Signalled(s.phases[i].result)], stopped := s.stopped
        || s.phases[i].result == Verdict(false))
    case Release(i) => s.(phases := s.phases[i := Finished(s.phases[i].result)], held := if s.held > 0 then s.held - 1
        else 0)
    case CallerGone => s.(gone := true)
  }

  /*** What every step keeps ***/

  function InFlight(s: Pool): set<nat> {
    set i: nat | i < |s.phases| && s.phases[i].HoldsToken()
  }

  predicate FailureKnown(s: Pool) {
    exists i :: 0 <= i < |s.phases| && (s.phases[i].Signalled? || s.phases[i].Finished?) &&
        s.phases[i].result == Verdict(false)
  }

  predicate Inv(s: Pool) {
    && |s.outcomes| == |s.phases|
    && s.next <= |s.phases|
    && s.held == |InFlight(s)| <= MAX_CONCURRENT_WATCHES
    && (forall i :: 0 <= i < |s.phases| ==> WorkerOk(s, i))
    && (s.stopped ==> FailureKnown(s))
  }

  predicate WorkerOk(s: Pool, i: nat)
    requires i < |s.phases| == |s.outcomes|
  {
    && (s.phases[i].Idle? <==> i >= s.next)
    && s.outcomes[i] == s.phases[i].Recorded()
    && CancelExplained(s, s.phases[i])
  }

  /** Nobody reports cancellation without the context being done, nor is passed over. */
  predicate CancelExplained(s: Pool, p: Phase) {
    && (p.Passed? ==> s.Done() && p.error.Erred? && (p.error.cancelled || s.gone))
    && ((p.Returned? || p.Wrote? || p.Signalled? || p.Finished?) && p.result == Erred(true) ==> s.Done())
  }

  lemma StartInv(n: nat)
    ensures Inv(Start(n))
  {
    assert InFlight(Start(n)) == {};
  }

  lemma TokensTaken(s: Pool, r: Pool, i: nat)
    requires i < |s.phases| && |r.phases| == |s.phases| && r.phases == s.phases[i := r.phases[i]]
    ensures r.phases[i].HoldsToken() && s.phases[i].HoldsToken() ==> InFlight(r) == InFlight(s)
    ensures !r.phases[i].HoldsToken() && !s.phases[i].HoldsToken() ==> InFlight(r) == InFlight(s)
    ensures r.phases[i].HoldsToken() && !s.phases[i].HoldsToken() ==> |InFlight(r)| == |InFlight(s)| + 1
    ensures !r.phases[i].HoldsToken() && s.phases[i].HoldsToken() ==> |InFlight(r)| == |InFlight(s)| - 1
  {
    forall k: nat | k < |s.phases| && k != i ensures r.phases[k] == s.phases[k] {}
    if r.phases[i].HoldsToken() == s.phases[i].HoldsToken() {
      assert InFlight(r) == InFlight(s);
    } else if r.phases[i].HoldsToken() {
      assert InFlight(r) == InFlight(s) + {i};
    } else {
      assert InFlight(r) == InFlight(s) - {i};
    }
  }

  function Mover(s: Pool, step: Step): nat {
    match step
    case Return(i, _) => i
    case Write(i) => i
    case Signal(i) => i
    case Release(i) => i
    case _ => s.next
  }

  lemma StepKeepsInv(s: Pool, step: Step)
    requires Inv(s) && Enabled(s, step)
    ensures Inv(Do(s, step))
  {
    var r := Do(s, step);
    if step.CallerGone? {
      assert InFlight(r) == InFlight(s);
      forall k: nat | k < |s.phases| ensures WorkerOk(r, k) {
        assert WorkerOk(s, k);
      }
      if s.stopped {
        var k :| 0 <= k < |s.phases| && (s.phases[k].Signalled? || s.phases[k].Finished?)
            && s.phases[k].result == Verdict(false);
        assert r.phases[k] == s.phases[k];
      }
    } else {
      var i := Mover(s, step);
      assert WorkerOk(s, i);
      TokensTaken(s, r, i);
      StopStaysExplained(s, step, i);
      forall k: nat | k < |s.phases| ensures WorkerOk(r, k) {
        assert WorkerOk(s, k);
      }
    }
  }

  lemma StopStaysExplained(s: Pool, step: Step, i: nat)
    requires Inv(s) && Enabled(s, step) && !step.CallerGone? && i == Mover(s, step)
    ensures Do(s, step).stopped ==> FailureKnown(Do(s, step))
  {
    hide InFlight;
    assert WorkerOk(s, i);
    var r := Do(s, step);
    if s.stopped {
      var k :| 0 <= k < |s.phases| && (s.phases[k].Signalled? || s.phases[k].Finished?)
          && s.phases[k].result == Verdict(false);
      assert (r.phases[k].Signalled? || r.phases[k].Finished?) && r.phases[k].result == Verdict(false);
    } else if r.stopped {
      assert r.phases[i] == Signalled(Verdict(false));
    }
  }

  /** The states that some interleaving reaches. */
  ghost predicate Reaches(s: Pool, steps: seq<Step>, r: Pool)
    requires |s.outcomes| == |s.phases|
    decreases |steps|
  {
    if steps == [] then r == s else Enabled(s, steps[0]) && Reaches(Do(s, steps[0]), steps[1..], r)
  }

  lemma {:induction false} RunKeepsInv(s: Pool, steps: seq<Step>, r: Pool)
    requires Inv(s) && Reaches(s, steps, r)
    ensures Inv(r) && |r.phases| == |s.phases|
    decreases |steps|
  {
    if steps != [] {
      StepKeepsInv(s, steps[0]);
      RunKeepsInv(Do(s, steps[0]), steps[1..], r);
    }
  }

  /** Never more than sixteen watches in flight. */
  lemma AtMostSixteen(n: nat, steps: seq<Step>, r: Pool)
    requires Reaches(Start(n), steps, r)
    ensures |InFlight(r)| <= 16
  {
    StartInv(n);
    RunKeepsInv(Start(n), steps, r);
  }

  /*** It always ends ***/

  function Left(p: Phase): nat {
    match p
    case Idle => 6
    case Watching => 4
    case Returned(_) => 3
    case Wrote(_) => 2
    case Signalled(_) => 1
    case _ => 0
  }

  function Work(phases: seq<Phase>): nat {
    if phases == [] then 0 else Left(phases[0]) + Work(phases[1..])
  }

  function Remaining(s: Pool): nat {
    Work(s.phases) + if s.gone then 0 else 1
  }

  lemma {:induction false} WorkUpdates(phases: seq<Phase>, i: nat, p: Phase)
    requires i < |phases|
    ensures Work(phases[i := p]) == Work(phases) - Left(phases[i]) + Left(p)
  {
    if i > 0 {
      WorkUpdates(phases[1..], i - 1, p);
      assert phases[i := p][1..] == phases[1..][i - 1 := p];
    } else {
      assert phases[i := p][1..] == phases[1..];
    }
  }

  /** Every step uses up work, so no interleaving is endless. */
  lemma StepsRunOut(s: Pool, step: Step)
    requires Inv(s) && Enabled(s, step)
    ensures Remaining(Do(s, step)) < Remaining(s)
  {
    if !step.CallerGone? {
      var i := Mover(s, step);
      assert WorkerOk(s, i);
      WorkUpdates(s.phases, i, Do(s, step).phases[i]);
    }
  }

  /** Until all have joined, some step other than the caller's can be taken: the semaphore and the loop never
      deadlock. */
  lemma NeverStuck(s: Pool) returns (step: Step)
    requires Inv(s) && !s.Joined()
    ensures Enabled(s, step) && !step.CallerGone?
  {
    if s.next < |s.phases| && s.held < MAX_CONCURRENT_WATCHES {
      return Launch;
    }
    assert InFlight(s) != {} by {
      if s.next == |s.phases| {
        var k: nat :| k < |s.phases| && !s.phases[k].Over();
        assert WorkerOk(s, k);
        assert k in InFlight(s);
      }
    }
    var i: nat :| i in InFlight(s);
    if s.phases[i].Watching? {
      step := Return(i, Verdict(true));
    } else if s.phases[i].Returned? {
      step := Write(i);
    } else if s.phases[i].Wrote? {
      step := Signal(i);
    } else {
      step := Release(i);
    }
  }

  /*** The combined result ***/

  /** `failed`: the stacks reported as unhealthy, by number; `unseen`: those stopped early. */
  datatype Combined = Failed(stack: nat) | Combined(healthy: bool, failed: seq<nat>, unseen: seq<nat>)

  /** The fold over the outcomes. `gone(i)`: the caller's context is done when outcome i is looked at. */
  function Fold(outcomes: seq<Watched>, gone: nat -> bool): Combined {
    if outcomes == [] then Combined(true, [], [])
    else
      var n := |outcomes| - 1;
      var c := Fold(outcomes[..n], gone);
      if c.Failed? then c
      else match outcomes[n]
        case Erred(cancelled) => if !gone(n) && cancelled then c.(unseen := c.unseen + [n]) else Failed(n)
        case Verdict(ok) => if ok then c else Combined(false, c.failed + [n], c.unseen)
  }

  lemma {:induction false} FoldFailedStays(outcomes: seq<Watched>, gone: nat -> bool, i: nat)
    requires i <= |outcomes| && Fold(outcomes[..i], gone).Failed?
    ensures Fold(outcomes, gone) == Fold(outcomes[..i], gone)
    decreases |outcomes|
  {
    if i == |outcomes| {
      assert outcomes[..i] == outcomes;
    } else {
      var init := outcomes[..|outcomes| - 1];
      assert init[..i] == outcomes[..i];
      FoldFailedStays(init, gone, i);
    }
  }

  method CombineOutcomes(outcomes: seq<Watched>, gone: nat -> bool) returns (r: Combined)
    ensures r == Fold(outcomes, gone)
  {
    var healthy := true;
    var failed: seq<nat>, unseen: seq<nat> := [], [];
    for i := 0 to |outcomes|
      invariant Fold(outcomes[..i], gone) == Combined(healthy, failed, unseen)
    {
      assert outcomes[..i + 1][..i] == outcomes[..i];
      var o := outcomes[i];
      if o.Erred? {
        if !gone(i) && o.cancelled {
          unseen := unseen + [i];
          continue;
        }
        FoldFailedStays(outcomes, gone, i + 1);
        return Failed(i);
      }
      if !o.healthy {
        healthy, failed := false, failed + [i];
      }
    }
    assert outcomes[..|outcomes|] == outcomes;
    r := Combined(healthy, failed, unseen);
  }

  /** What the fold says of the outcomes. */
  lemma {:induction false} FoldMeans(outcomes: seq<Watched>, gone: nat -> bool)
    ensures var c := Fold(outcomes, gone);
      && (c.Failed? ==>
            c.stack < |outcomes| && outcomes[c.stack].Erred? && (gone(c.stack) || !outcomes[c.stack].cancelled))
      && (c.Combined? ==>
            && (c.healthy <==> c.failed == [])
            && (forall i :: i in c.failed <==> 0 <= i < |outcomes| && outcomes[i] == Verdict(false))
            && (forall i :: i in c.unseen <==> 0 <= i < |outcomes| && outcomes[i].Erred?)
            && (forall i :: 0 <= i < |outcomes| && outcomes[i].Erred? ==> outcomes[i].cancelled && !gone(i)))
  {
    if outcomes != [] {
      FoldMeans(outcomes[..|outcomes| - 1], gone);
    }
  }

  function ResultsOf(s: Pool): seq<Watched>
    requires Inv(s) && s.Joined()
  {
    seq(|s.phases|, i requires 0 <= i < |s.phases| => assert s.phases[i].Over() && WorkerOk(s, i); s.outcomes[i].value)
  }

  /** The caller's context, once done, stays done; it may be done later than the last step. */
  ghost predicate Later(s: Pool, gone: nat -> bool) {
    s.gone ==> forall i: nat :: gone(i)
  }

  /** In every interleaving, a result without an error is Healthy exactly when every stack's own watch finished Healthy,
      and names as failed exactly the stacks whose own watch found them unhealthy. An error is a watch's own, or the
      caller is gone. */
  lemma VerdictIsTrue(n: nat, steps: seq<Step>, s: Pool, gone: nat -> bool)
    requires Reaches(Start(n), steps, s) && s.Joined() && Later(s, gone)
    ensures Inv(s) && |s.phases| == n
    ensures var c := Fold(ResultsOf(s), gone);
      && (c.Combined? ==>
            && (c.healthy <==> forall i :: 0 <= i < n ==> s.phases[i] == Finished(Verdict(true)))
            && (forall i :: i in c.failed <==> 0 <= i < n && s.phases[i] == Finished(Verdict(false)))
            && (c.healthy <==> c.failed == []))
      && (c.Failed? ==> c.stack < n && (s.phases[c.stack] == Finished(Erred(false)) || gone(c.stack)))
  {
    StartInv(n);
    RunKeepsInv(Start(n), steps, s);
    JoinedVerdict(s, gone);
  }

  lemma JoinedVerdict(s: Pool, gone: nat -> bool)
    requires Inv(s) && s.Joined() && Later(s, gone)
    ensures var c := Fold(ResultsOf(s), gone);
      && (c.Combined? ==>
            && (c.healthy <==> forall i :: 0 <= i < |s.phases| ==> s.phases[i] == Finished(Verdict(true)))
            && (forall i :: i in c.failed <==> 0 <= i < |s.phases| && s.phases[i] == Finished(Verdict(false)))
            && (c.healthy <==> c.failed == []))
      && (c.Failed? ==> c.stack < |s.phases| && (s.phases[c.stack] == Finished(Erred(false)) || gone(c.stack)))
  {
    var results := ResultsOf(s);
    var c := Fold(results, gone);
    FoldMeans(results, gone);
    hide Fold, InFlight;
    forall i | 0 <= i < |s.phases|
      ensures s.phases[i] == Passed(results[i]) || s.phases[i] == Finished(results[i])
    {
      assert s.phases[i].Over() && WorkerOk(s, i);
    }
    forall i | 0 <= i < |s.phases| && s.phases[i].Passed?
        ensures results[i].Erred? && (results[i].cancelled || s.gone) {
      assert WorkerOk(s, i);
    }
    if c.Combined? && c.failed != [] {
      assert c.failed[0] in c.failed;
    }
    if c.Combined? && c.healthy {
      forall i | 0 <= i < |s.phases| ensures s.phases[i] == Finished(Verdict(true)) {
        assert WorkerOk(s, i);
      }
    }
  }
}
