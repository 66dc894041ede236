/** The activity counter of internal/reconcile/reconcile.go, which the health monitor of monitor.go reads as a sequence
    lock: every interleaving, in one process, of reconcile attempts and monitor checks over one state file. */
module Seqlock {

  /** An attempt: outside, holding the single-flight mutex with the counter not yet raised, between the two increments,
      and after the second with the mutex still held. */
  datatype Attempt = Outside | Entering | Inside | Leaving

  /** A check: at rest; between its two readings of the counter, `at` being how often the counter had been raised at the
      first; and observing what it saw. */
  datatype Check = Resting | Looking(before: nat, at: nat) | Observing(seen: nat)

  /** An atomic.Uint64. */
  const WRAP := 0x1_0000_0000_0000_0000

  /** `raised` counts the increments; `counter` is the word they leave. */
  datatype System = System(locked: bool, counter: nat, raised: nat, attempts: seq<Attempt>, checks: seq<Check>)

  function Start(attempts: nat, checks: nat): System {
    System(false, 0, 0, seq(attempts, _ => Outside), seq(checks, _ => Resting))
  }

  datatype Step =
    | TryLock(who: nat)
    | RaiseIn(who: nat)
    | RaiseOut(who: nat)
    | Unlock(who: nat)
    | FirstRead(check: nat)
    | Snapshot(check: nat)
    | Quit(check: nat)
    | SecondRead(check: nat)
    | Observed(check: nat)

  predicate Enabled(s: System, step: Step) {
    match step
    case TryLock(i) => i < |s.attempts| && s.attempts[i].Outside?
    case RaiseIn(i) => i < |s.attempts| && s.attempts[i].Entering?
    case RaiseOut(i) => i < |s.attempts| && s.attempts[i].Inside?
    case Unlock(i) => i < |s.attempts| && s.attempts[i].Leaving?
    case FirstRead(c) => c < |s.checks| && s.checks[c].Resting?
    case Snapshot(c) => c < |s.checks| && s.checks[c].Looking?
    case Quit(c) => c < |s.checks| && s.checks[c].Looking?
    case SecondRead(c) => c < |s.checks| && s.checks[c].Looking?
    case Observed(c) => c < |s.checks| && s.checks[c].Observing?
  }

  function Raise(s: System, i: nat, to: Attempt): System
    requires i < |s.attempts|
  {
    s.(counter := (s.counter + 1) % WRAP, raised := s.raised + 1, attempts := s.attempts[i := to])
  }

  function Do(s: System, step: Step): System
    requires Enabled(s, step)
  {
    match step
    case TryLock(i) => if s.locked then s else s.(locked := true, attempts := s.attempts[i := Entering])
    case RaiseIn(i) => Raise(s, i, Inside)
    case RaiseOut(i) => Raise(s, i, Leaving)
    case Unlock(i) => s.(locked := false, attempts := s.attempts[i := Outside])
    case FirstRead(c) =>
      if s.counter % 2 == 1 then s else s.(checks := s.checks[c := Looking(s.counter, s.raised)])
    case Snapshot(_) => s
    case Quit(c) => s.(checks := s.checks[c := Resting])
    case SecondRead(c) =>
      s.(checks := s.checks[c := if s.counter == s.checks[c].before then Observing(s.counter) else Resting])
    case Observed(c) => s.(checks := s.checks[c := Resting])
  }

  /*** What every step keeps ***/

  predicate Idle(s: System) {
    forall i :: 0 <= i < |s.attempts| ==> s.attempts[i].Outside?
  }

  /** Exactly one attempt holds the mutex. */
  predicate HeldBy(s: System, i: nat) {
    i < |s.attempts| && !s.attempts[i].Outside? && forall k :: 0 <= k < |s.attempts| && k != i ==>
        s.attempts[k].Outside?
  }

  predicate Busy(s: System) {
    exists i :: 0 <= i < |s.attempts| && s.attempts[i].Inside?
  }

  predicate Flight(s: System) {
    && (if s.locked then exists i :: 0 <= i < |s.attempts| && HeldBy(s, i) else Idle(s))
    && s.counter == s.raised % WRAP
    && (s.raised % 2 == 1 <==> Busy(s))
  }

  /** What a check under way remembers. */
  predicate Remembers(s: System, c: Check) {
    c.Looking? ==> c.at <= s.raised && c.at % 2 == 0 && c.before == c.at % WRAP
  }

  predicate Inv(s: System) {
    Flight(s) && forall c :: 0 <= c < |s.checks| ==> Remembers(s, s.checks[c])
  }

  lemma WrapKeepsParity(n: nat)
    ensures (n % WRAP) % 2 == n % 2
    ensures (n % WRAP + 1) % WRAP == (n + 1) % WRAP
  {
  }

  /** The counter is odd exactly while an attempt is between its two increments. */
  lemma OddMeansBusy(s: System)
    requires Inv(s)
    ensures s.counter % 2 == 1 <==> Busy(s)
  {
    WrapKeepsParity(s.raised);
  }

  lemma StepKeepsInv(s: System, step: Step)
    requires Inv(s) && Enabled(s, step)
    ensures Inv(Do(s, step))
  {
    var r := Do(s, step);
    WrapKeepsParity(s.raised);
    if r.attempts == s.attempts && r.locked == s.locked && r.raised == s.raised && r.counter == s.counter {
      assert forall i :: HeldBy(s, i) ==> HeldBy(r, i);
      assert Busy(r) <==> Busy(s);
    } else {
      AttemptKeepsFlight(s, step);
      hide Flight;
      assert r.checks == s.checks;
    }
  }

  lemma AttemptKeepsFlight(s: System, step: Step)
    requires Flight(s) && Enabled(s, step) && (step.TryLock? || step.RaiseIn? || step.RaiseOut? || step.Unlock?)
    ensures Flight(Do(s, step))
  {
    var r := Do(s, step);
    if step.TryLock? {
      if !s.locked {
        assert HeldBy(r, step.who);
        assert !Busy(r) && !Busy(s);
      }
    } else {
      HolderMoves(s, r, step.who);
      if step.Unlock? {
        assert r.raised == s.raised;
      } else {
        HolderRaises(s, r, step.who);
      }
    }
  }

  lemma HolderRaises(s: System, r: System, i: nat)
    requires s.counter == s.raised % WRAP && (s.raised % 2 == 1 <==> Busy(s)) && s.locked
    requires i < |s.attempts| == |r.attempts| && r == Raise(s, i, r.attempts[i]) && HeldBy(r, i)
        && (Busy(r) <==> !Busy(s))
    ensures Flight(r)
  {
    hide Busy, HeldBy, Idle;
    WrapKeepsParity(s.raised);
    assert (s.raised + 1) % 2 == 1 <==> s.raised % 2 == 0;
  }

  /** Only the holder of the mutex moves on. */
  lemma HolderMoves(s: System, r: System, i: nat)
    requires Flight(s) && i < |s.attempts| && !s.attempts[i].Outside? && |r.attempts| == |s.attempts|
        && r.attempts == s.attempts[i := r.attempts[i]]
    ensures s.locked && HeldBy(s, i)
    ensures Busy(s) <==> s.attempts[i].Inside?
    ensures Busy(r) <==> r.attempts[i].Inside?
    ensures if r.attempts[i].Outside? then Idle(r) else HeldBy(r, i)
  {
    var k :| 0 <= k < |s.attempts| && HeldBy(s, k);
    assert k == i;
  }

  /*** Runs ***/

  /** The states of a run, one per step and the one it ends in. */
  predicate IsRun(states: seq<System>, steps: seq<Step>) {
    && |states| == |steps| + 1
    && forall k :: 0 <= k < |steps| ==> Enabled(states[k], steps[k]) && states[k + 1] == Do(states[k], steps[k])
  }

  lemma {:induction false} RunKeepsInv(states: seq<System>, steps: seq<Step>, k: nat)
    requires IsRun(states, steps) && Inv(states[0]) && k < |states|
    ensures Inv(states[k])
  {
    if k > 0 {
      RunKeepsInv(states, steps, k - 1);
      StepKeepsInv(states[k - 1], steps[k - 1]);
    }
  }

  lemma {:induction false} RaisedGrows(states: seq<System>, steps: seq<Step>, i: nat, j: nat)
    requires IsRun(states, steps) && i <= j < |states|
    ensures states[i].raised <= states[j].raised
    decreases j - i
  {
    if i < j {
      RaisedGrows(states, steps, i, j - 1);
    }
  }

  lemma StartInv(attempts: nat, checks: nat)
    ensures Inv(Start(attempts, checks))
  {
  }

  /** Single flight: in every reachable state at most one attempt is past the mutex, and the counter is odd exactly
      while one is between its increments. */
  lemma SingleFlight(attempts: nat, checks: nat, states: seq<System>, steps: seq<Step>, k: nat)
    requires IsRun(states, steps) && states[0] == Start(attempts, checks) && k < |states|
    ensures forall i, j :: 0 <= i < j < |states[k].attempts| ==>
        states[k].attempts[i].Outside? || states[k].attempts[j].Outside?
    ensures states[k].counter % 2 == 1 <==> Busy(states[k])
  {
    StartInv(attempts, checks);
    RunKeepsInv(states, steps, k);
    OddMeansBusy(states[k]);
  }

  /** Check c makes its first reading at step i and goes on to observe at step j, having neither quit nor started
      again. */
  predicate Observes(states: seq<System>, steps: seq<Step>, c: nat, i: nat, j: nat)
    requires IsRun(states, steps)
  {
    && i < j < |steps| && c < |states[i].checks| && |states[j].checks| == |states[j + 1].checks| == |states[i].checks|
    && steps[i] == FirstRead(c) && steps[j] == SecondRead(c) && states[j + 1].checks[c].Observing?
    && (forall k :: i < k < j ==>
        steps[k] != Quit(c) && steps[k] != SecondRead(c) && steps[k] != FirstRead(c) && steps[k] != Observed(c))
  }

  lemma {:induction false} StillLooking(states: seq<System>, steps: seq<Step>, c: nat, i: nat, j: nat, k: nat)
    requires IsRun(states, steps) && Observes(states, steps, c, i, j) && i < k <= j
    requires states[i].counter % 2 == 0
    ensures c < |states[k].checks| && states[k].checks[c] == Looking(states[i].counter, states[i].raised)
    decreases k
  {
    if k > i + 1 {
      StillLooking(states, steps, c, i, j, k - 1);
    }
  }

  /** A check that goes on to observe had no attempt between its increments at any moment from its first reading to its
      second, so at none of its snapshots, as long as the word did not wrap all the way round in between. */
  lemma ObservedUndisturbed(attempts: nat, checks: nat, states: seq<System>, steps: seq<Step>, c: nat, i: nat, j: nat)
    requires IsRun(states, steps) && states[0] == Start(attempts, checks) && Observes(states, steps, c, i, j)
    requires states[j].raised - states[i].raised < WRAP
    ensures forall k :: i <= k <= j + 1 ==> !Busy(states[k])
  {
    StartInv(attempts, checks);
    RunKeepsInv(states, steps, i);
    RunKeepsInv(states, steps, j);
    OddMeansBusy(states[i]);
    LookedEven(states, steps, c, i, j);
    StillLooking(states, steps, c, i, j, j);
    SameResidue(states[i].raised, states[j].raised);
    forall k | i <= k <= j + 1 ensures !Busy(states[k]) {
      RunKeepsInv(states, steps, k);
      RaisedGrows(states, steps, i, k);
      if k <= j {
        RaisedGrows(states, steps, k, j);
      }
    }
  }

  /** The check that observes found the counter even at its first reading. */
  lemma LookedEven(states: seq<System>, steps: seq<Step>, c: nat, i: nat, j: nat)
    requires IsRun(states, steps) && Observes(states, steps, c, i, j)
    ensures states[i].counter % 2 == 0
  {
    if states[i].counter % 2 == 1 {
      StaysResting(states, steps, c, i, j, j);
    }
  }

  lemma {:induction false} StaysResting(states: seq<System>, steps: seq<Step>, c: nat, i: nat, j: nat, k: nat)
    requires IsRun(states, steps) && Observes(states, steps, c, i, j) && states[i].counter % 2 == 1 && i < k <= j
    ensures c < |states[k].checks| && states[k].checks[c].Resting?
    decreases k
  {
    if k > i + 1 {
      StaysResting(states, steps, c, i, j, k - 1);
    }
  }

  lemma SameResidue(a: nat, b: nat)
    requires a <= b < a + WRAP && a % WRAP == b % WRAP
    ensures a == b
  {
  }
}
