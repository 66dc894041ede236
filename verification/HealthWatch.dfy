/** health.Watch and its helpers as loops, proved against HealthSpec. */
module HealthWatch {
  import opened HealthSpec

  datatype Shot = ShotFailed | Shot(snapshot: Snapshot)

  /** What a watch meets: the snapshot of poll p, whether the sleep before it ran to its end, and the clock after it.
      Poll 0 is the baseline. */
  datatype Feed = Feed(shot: nat -> Shot, wakes: nat -> bool, clock: nat -> int)
  {
    predicate Answered(p: nat) {
      shot(p).Shot? && (p > 0 ==> wakes(p))
    }

    function Shots(): nat -> Snapshot {
      (p: nat) => if shot(p).Shot? then shot(p).snapshot else []
    }
  }

  datatype Report = Errored | Verdict(healthy: bool)

  /** The deadline has not passed before poll n has been weighed, and then it has. */
  ghost predicate IsLastPoll(feed: Feed, opts: Options, n: nat) {
    && n >= 1
    && feed.clock(n) >= feed.clock(0) + opts.duration
    && forall p :: 1 <= p < n ==> feed.clock(p) < feed.clock(0) + opts.duration
  }

  method Evaluate(s: Snapshot, tolerateStarting: bool, tolerateRestarting: bool) returns (healthy: bool)
    ensures healthy <==> AllPass(s, tolerateStarting, tolerateRestarting)
  {
    for i := 0 to |s|
      invariant forall k :: 0 <= k < i ==> Passes(s[k], tolerateStarting, tolerateRestarting)
    {
      var c := s[i];
      if c.Completed() { continue; }
      if tolerateRestarting && c.phase.Restarting? { continue; }
      if !c.phase.Running? { return false; }
      if tolerateStarting && c.probe.Starting? { continue; }
      if !c.Fine() { return false; }
    }
    return true;
  }

  method MissingContainers(base: Snapshot, cur: Snapshot) returns (ok: bool)
    ensures ok <==> KeepsAll(base, cur)
  {
    var present: set<Id> := {};
    for i := 0 to |cur|
      invariant forall id :: id in present <==> exists k :: 0 <= k < i && cur[k].id == id
    {
      present := present + {cur[i].id};
    }
    for i := 0 to |base|
      invariant forall k :: 0 <= k < i ==> Present(cur, base[k].id)
    {
      if base[i].id !in present { return false; }
    }
    return true;
  }

  function Get(m: map<Id, nat>, id: Id): nat {
    if id in m then m[id] else 0
  }

  /** The two streak maps of a watch. */
  datatype Counters = Counters(wedged: map<Id, nat>, ailing: map<Id, nat>)

  /** The counters of this container hold the streak lengths that the polls up to p leave. */
  predicate Tracks(n: Counters, shots: nat -> Snapshot, p: nat, id: Id) {
    && Get(n.wedged, id) == Length(Wedged, SightsOf(shots, id), p)
    && Get(n.ailing, id) == Length(Ailing, SightsOf(shots, id), p)
  }

  ghost predicate TracksAll(n: Counters, shots: nat -> Snapshot, p: nat) {
    forall id :: Tracks(n, shots, p, id)
  }

  predicate SameFor(n: Counters, n': Counters, id: Id) {
    Get(n.wedged, id) == Get(n'.wedged, id) && Get(n.ailing, id) == Get(n'.ailing, id)
  }

  /** What one container contributes to a poll that ends nothing. */
  ghost predicate ContainerOk(opts: Options, shots: nat -> Snapshot, p: nat, c: Container) {
    Tolerable(opts, shots(0), c) && NoFullStreak(opts, shots, c.id, p)
  }

  /** What one more poll does to the counters of a container it shows. */
  lemma Weighing(opts: Options, shots: nat -> Snapshot, before: nat, i: nat, n: Counters)
    requires UniqueIds(shots(before + 1)) && i < |shots(before + 1)|
        && Tracks(n, shots, before, shots(before + 1)[i].id)
    ensures var p := before + 1; var c := shots(p)[i]; var g := SightOf(c); var sights := SightsOf(shots, c.id);
      && Length(Wedged, sights, p) == (if g.Stuck? then Get(n.wedged, c.id) + 1 else if g.Done?
          then Get(n.wedged, c.id) else 0)
      && Length(Ailing, sights, p) == (if g.Sick? then Get(n.ailing, c.id) + 1 else if g.Well? then 0
          else Get(n.ailing, c.id))
      && (FullStreakAt(Wedged, opts.streakLimit, sights, p) <==>
          g.Stuck? && Get(n.wedged, c.id) + 1 >= opts.streakLimit)
      && (FullStreakAt(Ailing, opts.streakLimit, sights, p) <==> g.Sick? && Get(n.ailing, c.id) + 1 >= opts.streakLimit)
  {
    var p := before + 1;
    var c := shots(p)[i];
    UniqueFind(shots(p), i);
    assert SightsOf(shots, c.id)(p) == SightOf(c);
    LengthIsStreak(Wedged, opts.streakLimit, SightsOf(shots, c.id), p);
    LengthIsStreak(Ailing, opts.streakLimit, SightsOf(shots, c.id), p);
  }

  /** The body of the loop over a poll's containers. */
  method WeighContainer(opts: Options, ghost shots: nat -> Snapshot, ghost before: nat, ghost i: nat, delta: int,
      c: Container, n: Counters)
    returns (ok: bool, n': Counters)
    requires UniqueIds(shots(before + 1)) && i < |shots(before + 1)| && c == shots(before + 1)[i]
    requires delta == RestartDelta(shots(0), c) && Tracks(n, shots, before, c.id)
    ensures ok <==> ContainerOk(opts, shots, before + 1, c)
    ensures ok ==> Tracks(n', shots, before + 1, c.id) && forall id :: id != c.id ==> SameFor(n, n', id)
  {
    Weighing(opts, shots, before, i, n);
    hide RestartDelta, FullStreakAt, Length;
    n' := n;
    if c.phase.Exited? && !c.Completed() { return false, n'; }
    if c.phase.Dead? || c.phase.Removing? { return false, n'; }
    if delta > opts.tolerance { return false, n'; }
    if c.Completed() { return true, n'; }
    if !c.phase.Running? {
      n' := n'.(wedged := n.wedged[c.id := Get(n.wedged, c.id) + 1]);
      return n'.wedged[c.id] < opts.streakLimit, n';
    }
    n' := n'.(wedged := n'.wedged - {c.id});
    if c.Fine() {
      n' := n'.(ailing := n'.ailing - {c.id});
      return true, n';
    }
    if c.probe.Starting? { return true, n'; }
    n' := n'.(ailing := n'.ailing[c.id := Get(n'.ailing, c.id) + 1]);
    ok := n'.ailing[c.id] < opts.streakLimit;
  }

  /** The baseline's restart counts, by container. */
  ghost predicate IsBase(base: Snapshot, restarts: map<Id, int>) {
    && (forall id :: id in restarts <==> Present(base, id))
    && (forall id :: id in restarts ==> restarts[id] == base[Find(base, id)].restarts)
  }

  method RestartCounts(base: Snapshot) returns (restarts: map<Id, int>)
    requires UniqueIds(base)
    ensures IsBase(base, restarts)
  {
    restarts := map[];
    for i := 0 to |base|
      invariant forall id :: id in restarts <==> exists k :: 0 <= k < i && base[k].id == id
      invariant forall k :: 0 <= k < i ==> base[k].id in restarts && restarts[base[k].id] == base[k].restarts
    {
      restarts := restarts[base[i].id := base[i].restarts];
    }
  }

  /** The loop over one poll's containers, updating the streak maps. */
  method WeighContainers(opts: Options, ghost shots: nat -> Snapshot, ghost before: nat, restarts: map<Id, int>,
      cur: Snapshot, n: Counters)
    returns (ok: bool, n': Counters)
    requires cur == shots(before + 1) && UniqueIds(cur) && IsBase(shots(0), restarts)
    requires TracksAll(n, shots, before)
    ensures ok <==> forall i :: 0 <= i < |cur| ==> ContainerOk(opts, shots, before + 1, cur[i])
    ensures ok ==> TracksAll(n', shots, before + 1)
  {
    n' := n;
    hide ContainerOk;
    for i := 0 to |cur|
      invariant forall k :: 0 <= k < i ==> ContainerOk(opts, shots, before + 1, cur[k])
      invariant forall k :: 0 <= k < i ==> Tracks(n', shots, before + 1, cur[k].id)
      invariant forall id :: SameFor(n, n', id) || Present(cur[..i], id)
      invariant forall k :: i <= k < |cur| ==> SameFor(n, n', cur[k].id)
    {
      var c := cur[i];
      ghost var m := n';
      var delta := if c.id in restarts then c.restarts - restarts[c.id] else c.restarts;
      assert Tracks(n, shots, before, c.id);
      ok, n' := WeighContainer(opts, shots, before, i, delta, c, n');
      if !ok { return; }
      forall k | 0 <= k < |cur| && k != i ensures SameFor(m, n', cur[k].id) {
        assert cur[k].id != c.id;
      }
      forall id ensures SameFor(n, n', id) || Present(cur[..i + 1], id) {
        SeenSoFar(cur, i, id);
        assert SameFor(n, m, id) || Present(cur[..i], id);
        assert SameFor(m, n', id) || id == c.id;
      }
    }
    assert cur[..|cur|] == cur;
    UnseenKeepLengths(shots, before, n, n');
    ok := true;
  }

  lemma SeenSoFar(s: Snapshot, i: nat, id: Id)
    requires i < |s|
    ensures Present(s[..i + 1], id) <==> Present(s[..i], id) || s[i].id == id
  {
    assert s[..i + 1] == s[..i] + [s[i]];
    if Present(s[..i], id) {
      assert s[..i + 1][Find(s[..i], id)].id == id;
    }
    assert s[..i + 1][i] == s[i];
    if Present(s[..i + 1], id) {
      var k := Find(s[..i + 1], id);
      assert k < i ==> s[..i][k].id == id;
    }
  }

  /** A container the poll does not show keeps its counters. */
  lemma UnseenKeepLengths(shots: nat -> Snapshot, before: nat, n: Counters, n': Counters)
    requires TracksAll(n, shots, before)
    requires var s := shots(before + 1);
      && (forall k :: 0 <= k < |s| ==> Tracks(n', shots, before + 1, s[k].id))
      && (forall id :: SameFor(n, n', id) || Present(s, id))
    ensures TracksAll(n', shots, before + 1)
  {
    var p := before + 1;
    var s := shots(p);
    forall id ensures Tracks(n', shots, p, id) {
      if Present(s, id) {
        assert s[Find(s, id)].id == id;
      } else {
        assert SightsOf(shots, id)(p) == Unseen;
        assert SameFor(n, n', id) && Tracks(n, shots, before, id);
      }
    }
  }

  lemma NothingTracked(shots: nat -> Snapshot)
    ensures TracksAll(Counters(map[], map[]), shots, 0)
  {
  }

  ghost predicate AllAnswered(feed: Feed, n: nat) {
    forall p :: 0 <= p <= n ==> feed.Answered(p)
  }

  /** The watch stops at poll p, one way or the other, having found nothing wrong before it. */
  ghost predicate Reaches(feed: Feed, opts: Options, p: nat) {
    && (forall q :: 0 <= q < p ==> feed.Answered(q))
    && (p > 0 ==> Populated(opts, feed.Shots()(0)))
    && (forall q :: 1 <= q < p ==> PollOk(opts, feed.Shots(), q))
  }

  /** What the watch must report when `n` is the last poll: Healthy exactly when every call is answered and the
      snapshots meet the specification, an error exactly when it reaches a call that is not answered. */
  ghost predicate Meets(feed: Feed, opts: Options, n: nat, r: Report) {
    && (r == Verdict(true) <==> AllAnswered(feed, n) && HealthyAfter(opts, feed.Shots(), n))
    && (r == Errored <==> exists p :: 0 <= p <= n && !feed.Answered(p) && Reaches(feed, opts, p))
  }

  lemma ErrorMeets(feed: Feed, opts: Options, n: nat, p: nat)
    requires p <= n && !feed.Answered(p) && Reaches(feed, opts, p)
    ensures Meets(feed, opts, n, Errored)
  {
    hide PollOk;
  }

  /** Poll p is bad. */
  lemma FailureMeets(feed: Feed, opts: Options, n: nat, p: nat)
    requires p <= n && AllAnswered(feed, p)
    requires if p == 0 then n > 0 && !Populated(opts, feed.Shots()(0)) else !PollOk(opts, feed.Shots(), p)
    ensures Meets(feed, opts, n, Verdict(false))
  {
    hide PollOk;
    forall q | 0 <= q <= n && !feed.Answered(q) ensures !Reaches(feed, opts, q) {
      assert q > p;
    }
  }

  lemma EndMeets(feed: Feed, opts: Options, n: nat)
    requires AllAnswered(feed, n) && Populated(opts, feed.Shots()(0)) && PollsOk(opts, feed.Shots(), n)
    ensures Meets(feed, opts, n, Verdict(AllPass(feed.Shots()(n), false, true)))
  {
  }

  method Watch(feed: Feed, opts: Options, ghost n: nat) returns (r: Report)
    requires IsLastPoll(feed, opts, n)
    requires forall p :: feed.shot(p).Shot? ==> UniqueIds(feed.shot(p).snapshot)
    ensures if opts.duration <= 0 then r == Verdict(true) else Meets(feed, opts, n, r)
  {
    if opts.duration <= 0 { return Verdict(true); }
    ghost var shots := feed.Shots();
    hide PollOk, AllPass, TracksAll, UniqueIds, IsBase, Meets;
    var first := feed.shot(0);
    if first.ShotFailed? {
      ErrorMeets(feed, opts, n, 0);
      return Errored;
    }
    var base := first.snapshot;
    assert shots(0) == base;
    if opts.expectContainers && |base| == 0 {
      FailureMeets(feed, opts, n, 0);
      return Verdict(false);
    }
    var restarts := RestartCounts(base);
    var deadline := feed.clock(0) + opts.duration;
    var counters := Counters(map[], map[]);
    NothingTracked(shots);
    var last := base;
    var p := 0;
    while p == 0 || feed.clock(p) < deadline
      invariant 0 <= p <= n
      invariant AllAnswered(feed, p)
      invariant PollsOk(opts, shots, p)
      invariant TracksAll(counters, shots, p)
      invariant last == shots(p)
      decreases n - p
    {
      var next := p + 1;
      if !feed.wakes(next) || feed.shot(next).ShotFailed? {
        ErrorMeets(feed, opts, n, next);
        return Errored;
      }
      var cur := feed.shot(next).snapshot;
      assert shots(next) == cur && AllAnswered(feed, next);
      var ok;
      ok, counters := PollOnce(opts, shots, p, base, restarts, cur, counters);
      if !ok {
        FailureMeets(feed, opts, n, next);
        return Verdict(false);
      }
      p, last := next, cur;
    }
    EndMeets(feed, opts, n);
    var healthy := Evaluate(last, false, true);
    r := Verdict(healthy);
  }

  /** One pass of the watch loop over a snapshot. */
  method PollOnce(opts: Options, ghost shots: nat -> Snapshot, ghost before: nat, base: Snapshot, restarts: map<Id,
      int>, cur: Snapshot, n: Counters)
    returns (ok: bool, n': Counters)
    requires base == shots(0) && cur == shots(before + 1) && UniqueIds(cur) && IsBase(base, restarts)
    requires TracksAll(n, shots, before)
    ensures ok <==> PollOk(opts, shots, before + 1)
    ensures ok ==> TracksAll(n', shots, before + 1)
  {
    hide TracksAll, Tolerable, NoFullStreak;
    n' := n;
    if opts.expectContainers && |cur| == 0 { return false, n'; }
    ok := MissingContainers(base, cur);
    if !ok { return; }
    ok, n' := WeighContainers(opts, shots, before, restarts, cur, n);
  }

  /** When each sleep advances the clock by exactly the interval, the watch makes max(1, ceil(duration / interval))
      polls. */
  lemma PollBound(feed: Feed, opts: Options, n: nat)
    requires IsLastPoll(feed, opts, n) && opts.interval > 0 && opts.duration > 0
    requires forall p: nat :: feed.clock(p) == feed.clock(0) + p * opts.interval
    ensures (n - 1) * opts.interval < opts.duration <= n * opts.interval
    ensures n == (opts.duration + opts.interval - 1) / opts.interval
  {
    assert feed.clock(n) == feed.clock(0) + n * opts.interval;
    if n > 1 {
      assert feed.clock(n - 1) == feed.clock(0) + (n - 1) * opts.interval;
    }
    var d := opts.duration + opts.interval - 1;
    assert n * opts.interval <= d < (n + 1) * opts.interval;
    QuotientUnique(d, opts.interval, n);
  }

  lemma QuotientUnique(d: int, k: int, n: int)
    requires k > 0 && n * k <= d < (n + 1) * k
    ensures n == d / k
  {
    var q := d / k;
    assert q * k <= d < (q + 1) * k;
    assert q + 1 <= n ==> (q + 1) * k <= n * k;
    assert n + 1 <= q ==> (n + 1) * k <= q * k;
  }
}
