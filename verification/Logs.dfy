/** The two bounded logs of internal/state/state.go against the unbounded ones they stand for. */
module Logs {
  import opened Records

  lemma LastNConcat<T>(n: nat, s: seq<T>, x: T)
    ensures LastN(n + 1, s + [x]) == LastN(n, s) + [x]
  {
  }

  lemma LastNLastN<T>(n: nat, m: nat, s: seq<T>)
    requires n <= m
    ensures LastN(n, LastN(m, s)) == LastN(n, s)
  {
  }

  lemma LastNSuffix<T>(n: nat, a: seq<T>, b: seq<T>)
    requires |b| >= n
    ensures LastN(n, a + b) == LastN(n, b)
  {
  }

  /*** Failed commits ***/

  function MarkAll(s: State, cs: seq<Commit>): State {
    if cs == [] then s else MarkAll(s, cs[..|cs| - 1]).MarkFailed(cs[|cs| - 1])
  }

  /** Every distinct commit, the one that failed last at the end. */
  function Recent(cs: seq<Commit>): seq<Commit> {
    if cs == [] then [] else Without(Recent(cs[..|cs| - 1]), cs[|cs| - 1]) + [cs[|cs| - 1]]
  }

  predicate Distinct<T(==)>(s: seq<T>) {
    forall i, j :: 0 <= i < j < |s| ==> s[i] != s[j]
  }

  /** The commits that failed after the last failure of c. */
  function Since(cs: seq<Commit>, c: Commit): set<Commit> {
    if cs == [] then {}
    else if cs[|cs| - 1] == c then {}
    else Since(cs[..|cs| - 1], c) + {cs[|cs| - 1]}
  }

  lemma {:induction false} WithoutConcat<T(!new)>(a: seq<T>, b: seq<T>, x: T)
    ensures Without(a + b, x) == Without(a, x) + Without(b, x)
  {
    if a == [] {
      assert a + b == b;
    } else {
      assert (a + b)[1..] == a[1..] + b;
      WithoutConcat(a[1..], b, x);
    }
  }

  lemma {:induction false} WithoutAbsent<T(!new)>(s: seq<T>, x: T)
    requires x !in s
    ensures Without(s, x) == s
  {
    if s != [] {
      WithoutAbsent(s[1..], x);
    }
  }

  lemma {:induction false} WithoutDistinct<T(!new)>(s: seq<T>, x: T)
    requires Distinct(s)
    ensures Distinct(Without(s, x))
    ensures |Without(s, x)| == if x in s then |s| - 1 else |s|
  {
    if s != [] {
      WithoutDistinct(s[1..], x);
      assert s[0] !in s[1..];
      if s[0] == x {
        WithoutAbsent(s[1..], x);
      }
    }
  }

  /** Truncating to n before removing and re-appending a commit loses nothing that would still be in the last n. */
  lemma TruncateCommutes(n: nat, s: seq<Commit>, c: Commit)
    requires Distinct(s)
    ensures LastN(n + 1, Without(LastN(n + 1, s), c) + [c]) == LastN(n + 1, Without(s, c) + [c])
  {
    if |s| > n + 1 {
      var k := |s| - (n + 1);
      var dropped, kept := s[..k], s[k..];
      assert s == dropped + kept;
      WithoutConcat(dropped, kept, c);
      WithoutDistinct(kept, c);
      LastNConcat(n, Without(kept, c), c);
      LastNConcat(n, Without(s, c), c);
      LastNSuffix(n, Without(dropped, c), Without(kept, c));
      hide Without, Distinct;
    }
  }

  lemma {:induction false} RecentDistinct(cs: seq<Commit>)
    ensures Distinct(Recent(cs))
    ensures forall c :: c in Recent(cs) <==> c in cs
  {
    if cs != [] {
      var front := cs[..|cs| - 1];
      assert cs == front + [cs[|cs| - 1]];
      RecentDistinct(front);
      WithoutDistinct(Recent(front), cs[|cs| - 1]);
    }
  }

  /** The stored list is the last 16 of the full distinct, most-recent-last list. */
  lemma {:induction false} FailedIsRecent(s: State, cs: seq<Commit>)
    requires s.failed == [] && NO_COMMIT !in cs
    ensures MarkAll(s, cs).failed == LastN(16, Recent(cs))
    ensures cs != [] ==> MarkAll(s, cs).lastFailed == cs[|cs| - 1]
  {
    if cs != [] {
      var front, last := cs[..|cs| - 1], cs[|cs| - 1];
      FailedIsRecent(s, front);
      RecentDistinct(front);
      TruncateCommutes(MAX_FAILED_COMMITS - 1, Recent(front), last);
    }
  }

  /** What follows c. */
  function Tail<T(==)>(s: seq<T>, c: T): seq<T> {
    if s == [] then [] else if s[0] == c then s[1..] else Tail(s[1..], c)
  }

  lemma {:induction false} TailWithout(s: seq<Commit>, x: Commit, c: Commit)
    requires c in s && c != x
    ensures Tail(Without(s, x) + [x], c) == Without(Tail(s, c), x) + [x]
  {
    if s[0] == c {
      assert (Without(s, x) + [x])[1..] == Without(s[1..], x) + [x];
    } else {
      TailWithout(s[1..], x, c);
      if s[0] != x {
        assert (Without(s, x) + [x])[1..] == Without(s[1..], x) + [x];
      }
    }
  }

  lemma {:induction false} TailLast(s: seq<Commit>, c: Commit)
    requires c !in s
    ensures Tail(s + [c], c) == []
  {
    if s != [] {
      assert (s + [c])[1..] == s[1..] + [c];
      TailLast(s[1..], c);
    }
  }

  lemma {:induction false} SinceIsTail(cs: seq<Commit>, c: Commit)
    requires c in cs
    ensures Since(cs, c) == set x | x in Tail(Recent(cs), c)
  {
    var front, last := cs[..|cs| - 1], cs[|cs| - 1];
    assert cs == front + [last];
    if last == c {
      TailLast(Without(Recent(front), c), c);
    } else {
      SinceIsTail(front, c);
      RecentDistinct(front);
      TailWithout(Recent(front), last, c);
    }
  }

  lemma {:induction false} InLastN(n: nat, s: seq<Commit>, c: Commit)
    requires Distinct(s)
    ensures c in LastN(n, s) <==> c in s && |Tail(s, c)| < n
  {
    if s != [] {
      InLastN(n, s[1..], c);
      if |s| > n {
        assert LastN(n, s) == if |s[1..]| <= n then s[1..] else LastN(n, s[1..]);
      }
      TailShort(s[1..], c);
    }
  }

  lemma {:induction false} TailShort(s: seq<Commit>, c: Commit)
    ensures s != [] ==> |Tail(s, c)| < |s|
    ensures Distinct(s) ==> Distinct(Tail(s, c))
  {
    if s != [] {
      TailShort(s[1..], c);
    }
  }

  lemma {:induction false} DistinctCount<T>(s: seq<T>)
    requires Distinct(s)
    ensures |set x | x in s| == |s|
  {
    if s != [] {
      DistinctCount(s[1..]);
      assert (set x | x in s) == {s[0]} + (set x | x in s[1..]);
    }
  }

  /** How long a failure is remembered: exactly until 16 other commits have failed since. */
  lemma KnownBadWindow(s: State, cs: seq<Commit>, c: Commit)
    requires s.failed == [] && s.lastFailed == NO_COMMIT && NO_COMMIT !in cs && c != NO_COMMIT
    ensures MarkAll(s, cs).IsKnownBad(c) <==> c in cs && |Since(cs, c)| < 16
  {
    FailedIsRecent(s, cs);
    RecentDistinct(cs);
    InLastN(MAX_FAILED_COMMITS, Recent(cs), c);
    if c in cs {
      SinceIsTail(cs, c);
      TailShort(Recent(cs), c);
      DistinctCount(Tail(Recent(cs), c));
    }
  }

  /*** History ***/

  function RecordAll(s: State, ds: seq<Deployment>): State {
    if ds == [] then s else RecordAll(s, ds[..|ds| - 1]).Record(ds[|ds| - 1])
  }

  /** The whole history, never truncated. */
  function Runs(ds: seq<Deployment>): seq<Deployment> {
    if ds == [] then [] else Extend(Runs(ds[..|ds| - 1]), ds[|ds| - 1])
  }

  lemma ExtendTruncated(n: nat, h: seq<Deployment>, d: Deployment)
    ensures LastN(n + 1, Extend(LastN(n + 1, h), d)) == LastN(n + 1, Extend(h, d))
  {
    if |h| > n + 1 {
      var t := LastN(n + 1, h);
      assert t[n] == h[|h| - 1];
      if !SameRun(t[n], d) {
        LastNConcat(n, t, d);
        LastNConcat(n, h, d);
        LastNLastN(n, n + 1, h);
      }
    }
  }

  /** The stored history is the last 20 entries of the untruncated one. */
  lemma {:induction false} HistoryIsRuns(s: State, ds: seq<Deployment>)
    requires s.history == []
    ensures RecordAll(s, ds).history == LastN(20, Runs(ds))
  {
    if ds != [] {
      HistoryIsRuns(s, ds[..|ds| - 1]);
      ExtendTruncated(MAX_HISTORY - 1, Runs(ds[..|ds| - 1]), ds[|ds| - 1]);
    }
  }

  type Key = (Commit, Verdict)

  function KeyOf(d: Deployment): Key {
    (d.commit, d.result)
  }

  function Keys(ds: seq<Deployment>): seq<Key> {
    if ds == [] then [] else Keys(ds[..|ds| - 1]) + [KeyOf(ds[|ds| - 1])]
  }

  function Times(k: Key, n: nat): seq<Key> {
    if n == 0 then [] else Times(k, n - 1) + [k]
  }

  /** Each entry read as one deployment plus its repeats. */
  function Expand(h: seq<Deployment>): seq<Key> {
    if h == [] then [] else Expand(h[..|h| - 1]) + Times(KeyOf(h[|h| - 1]), h[|h| - 1].repeats + 1)
  }

  /** The untruncated history is the run-length encoding of everything recorded: it expands back to the recorded
      sequence, and no two neighbours could be merged. */
  lemma {:induction false} RunsEncode(ds: seq<Deployment>)
    requires forall i :: 0 <= i < |ds| ==> ds[i].repeats == 0
    ensures Expand(Runs(ds)) == Keys(ds)
    ensures forall i :: 0 < i < |Runs(ds)| ==> !SameRun(Runs(ds)[i - 1], Runs(ds)[i])
    ensures ds != [] ==> Runs(ds) != [] && Runs(ds)[|Runs(ds)| - 1].(repeats := 0) == ds[|ds| - 1]
  {
    if ds != [] {
      var front, d := ds[..|ds| - 1], ds[|ds| - 1];
      RunsEncode(front);
      ExtendExpands(Runs(front), d);
    }
  }

  lemma ExtendExpands(h: seq<Deployment>, d: Deployment)
    requires d.repeats == 0
    ensures Expand(Extend(h, d)) == Expand(h) + [KeyOf(d)]
  {
    var h' := Extend(h, d);
    if |h'| == |h| {
      var front, k, r := h[..|h| - 1], KeyOf(d), h[|h| - 1].repeats;
      assert h'[..|h'| - 1] == front;
      assert Expand(h') == Expand(front) + (Times(k, r + 1) + [k]);
    } else {
      assert h'[..|h'| - 1] == h;
      assert Times(KeyOf(d), 1) == [KeyOf(d)];
    }
  }
}
