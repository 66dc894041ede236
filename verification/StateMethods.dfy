/** The methods of *State that update it in place, against the functions on records. */
module StateMethods {
  import opened Records

  /** A state and the fields its own methods assign; `rest` holds the others, which only the reconciler writes. */
  class MutableState {
    const rest: State
    var lastFailed: Commit
    var failed: seq<Commit>
    var pausedAt: Instant
    var pausedUntil: Instant
    var history: seq<Deployment>

    function Value(): State
      reads this
    {
      rest.(lastFailed := lastFailed, failed := failed, pausedAt := pausedAt, pausedUntil := pausedUntil,
          history := history)
    }

    constructor (s: State)
      ensures Value() == s
    {
      rest, lastFailed, failed, pausedAt, pausedUntil, history := s, s.lastFailed, s.failed, s.pausedAt, s.pausedUntil,
          s.history;
    }

    method MarkFailed(commit: Commit)
      modifies this`lastFailed, this`failed
      ensures Value() == old(Value()).MarkFailed(commit)
    {
      lastFailed := commit;
      if commit == NO_COMMIT { return; }
      var kept := DeleteCommit(failed, commit);
      kept := kept + [commit];
      if |kept| > MAX_FAILED_COMMITS {
        kept := kept[|kept| - MAX_FAILED_COMMITS..];
      }
      failed := kept;
    }

    method ForgetAllFailed()
      modifies this`lastFailed, this`failed
      ensures Value() == old(Value()).ForgetAllFailed()
      ensures forall c :: !Value().IsKnownBad(c)
    {
      lastFailed, failed := NO_COMMIT, [];
    }

    method Pause(at: Instant, until: Instant)
      modifies this`pausedAt, this`pausedUntil
      ensures Value() == old(Value()).(pausedAt := at, pausedUntil := until)
      ensures forall now: Instant :: at != 0 && (until == 0 || now < until) <==> Value().Paused(now)
    {
      pausedAt, pausedUntil := at, until;
    }

    method Resume()
      modifies this`pausedAt, this`pausedUntil
      ensures Value() == old(Value()).(pausedAt := 0, pausedUntil := 0)
      ensures forall now: Instant :: !Value().Paused(now)
    {
      pausedAt, pausedUntil := 0, 0;
    }

    method Record(d: Deployment)
      modifies this`history
      ensures Value() == old(Value()).Record(d)
    {
      var next, n := history, |history|;
      if n > 0 && next[n - 1].commit == d.commit && next[n - 1].result == d.result {
        next := next[n - 1 := d.(repeats := next[n - 1].repeats + 1)];
      } else {
        next := next + [d];
      }
      if |next| > MAX_HISTORY {
        next := next[|next| - MAX_HISTORY..];
      }
      history := next;
    }
  }

  /** slices.DeleteFunc on a clone. */
  method DeleteCommit(s: seq<Commit>, commit: Commit) returns (kept: seq<Commit>)
    ensures kept == Without(s, commit)
  {
    kept := [];
    assert s[0..] == s;
    for i := 0 to |s|
      invariant Without(s, commit) == kept + Without(s[i..], commit)
    {
      assert s[i..][1..] == s[i + 1..];
      if s[i] != commit {
        kept := kept + [s[i]];
      }
    }
  }
}
