/** The one record ComposeLock persists (internal/state/state.go), as a value.

    The source passes a *State around but copies it before every save (`next := *st`), so a record is a
    value here; the in-place updates happen to the variable that holds it. */
module Records {

  /** The empty string is "no commit". */
  type Commit = string

  const NO_COMMIT: Commit := ""

  type Name = string

  /** 0 is Go's zero time. */
  type Instant = nat

  const MAX_FAILED_COMMITS := 16
  const MAX_HISTORY := 20

  datatype Verdict =
    | Unset
    | Success
    | FailedGit
    | FailedPreflight
    | SkippedKnownBad
    | FailedApply
    | Reverted
    | Degraded

  datatype Deployment = Deployment(at: Instant, commit: Commit, result: Verdict, rolledBackTo: Commit, repeats: nat)

  datatype State = State(
    lastHealthy: Commit,
    lastHealthyStacks: seq<Name>,
    lastCheckout: Commit,
    lastFailed: Commit,
    failed: seq<Commit>,
    preflightBlocks: nat,
    lastResult: Verdict,
    lastAttempt: Commit,
    lastAttemptAt: Instant,
    pendingCommit: Commit,
    pendingSince: Instant,
    pendingAttempts: nat,
    pendingStacks: seq<Name>,
    pendingRevert: bool,
    pausedAt: Instant,
    pausedUntil: Instant,
    history: seq<Deployment>)
  {
    predicate Pending() {
      pendingCommit != NO_COMMIT || pendingRevert
    }

    predicate RevertInProgress() {
      pendingRevert || (pendingCommit != NO_COMMIT && pendingCommit == lastFailed)
    }

    predicate IsKnownBad(commit: Commit) {
      commit != NO_COMMIT && (commit == lastFailed || commit in failed)
    }

    predicate Paused(now: Instant) {
      pausedAt != 0 && (pausedUntil == 0 || now < pausedUntil)
    }

    function ExpectedCheckout(): Commit {
      if lastCheckout != NO_COMMIT then lastCheckout else lastHealthy
    }

    function MarkFailed(commit: Commit): State {
      if commit == NO_COMMIT then
        this.(lastFailed := commit)
      else
        this.(lastFailed := commit, failed := LastN(MAX_FAILED_COMMITS, Without(failed, commit) + [commit]))
    }

    function ForgetAllFailed(): State {
      this.(lastFailed := NO_COMMIT, failed := [])
    }

    function Record(d: Deployment): State {
      this.(history := LastN(MAX_HISTORY, Extend(history, d)))
    }
  }

  function New(): State {
    State(NO_COMMIT, [], NO_COMMIT, NO_COMMIT, [], 0, Unset, NO_COMMIT, 0, NO_COMMIT, 0, 0, [], false, 0, 0, [])
  }

  /** The last n elements, or all of them when there are fewer. */
  function LastN<T>(n: nat, s: seq<T>): seq<T> {
    if |s| <= n then s else s[|s| - n..]
  }

  /** slices.DeleteFunc for one value. */
  function Without<T(==,!new)>(s: seq<T>, x: T): (r: seq<T>)
    ensures x !in r
    ensures forall y :: y != x ==> (y in r <==> y in s)
    ensures |r| <= |s|
  {
    if s == [] then []
    else if s[0] == x then Without(s[1..], x)
    else [s[0]] + Without(s[1..], x)
  }

  predicate SameRun(a: Deployment, b: Deployment) {
    a.commit == b.commit && a.result == b.result
  }

  /** Append d, or fold it into the last entry when that reports the same commit and result. */
  function Extend(history: seq<Deployment>, d: Deployment): seq<Deployment> {
    if history != [] && SameRun(history[|history| - 1], d) then
      history[|history| - 1 := d.(repeats := history[|history| - 1].repeats + 1)]
    else
      history + [d]
  }
}
