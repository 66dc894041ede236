/** What a health watch means (internal/health/health.go), said over the sequence of snapshots it sees. */
module HealthSpec {

  type Id = string

  datatype Phase = Running | Exited | Created | Paused | Restarting | Dead | Removing | UnknownPhase(name: string)

  /** Docker's healthcheck status; Blank is the empty string. */
  datatype Probe = Blank | None | Starting | Healthy | Unhealthy | UnknownProbe(name: string)

  datatype Container = Container(id: Id, service: string, phase: Phase, probe: Probe, restarts: int, exitCode: int)
  {
    predicate Completed() {
      phase.Exited? && exitCode == 0
    }

    predicate Fine() {
      probe.Blank? || probe.None? || probe.Healthy?
    }
  }

  type Snapshot = seq<Container>

  datatype Options = Options(duration: int, interval: int, streakLimit: int, tolerance: int, expectContainers: bool)

  predicate UniqueIds(s: Snapshot) {
    forall i, j :: 0 <= i < j < |s| ==> s[i].id != s[j].id
  }

  predicate Present(s: Snapshot, id: Id) {
    exists i :: 0 <= i < |s| && s[i].id == id
  }

  function Find(s: Snapshot, id: Id): (i: nat)
    requires Present(s, id)
    ensures i < |s| && s[i].id == id
  {
    if s[0].id == id then 0 else
      assert Present(s[1..], id) by {
        var i :| 0 <= i < |s| && s[i].id == id;
        assert s[1..][i - 1].id == id;
      }
      1 + Find(s[1..], id)
  }

  /*** One container, poll by poll ***/

  /** What a poll tells of one container, as far as its two streaks are concerned. */
  datatype Sight = Unseen | Done | Stuck | Well | Warming | Sick

  function SightOf(c: Container): Sight {
    if c.Completed() then Done
    else if !c.phase.Running? then Stuck
    else if c.Fine() then Well
    else if c.probe.Starting? then Warming
    else Sick
  }

  function Sighting(s: Snapshot, id: Id): Sight {
    if Present(s, id) then SightOf(s[Find(s, id)]) else Unseen
  }

  /** Which streak: a container that does not run, or one whose healthcheck fails. */
  datatype Streak = Wedged | Ailing

  predicate Adds(k: Streak, g: Sight) {
    match k
    case Wedged => g.Stuck?
    case Ailing => g.Sick?
  }

  predicate Resets(k: Streak, g: Sight) {
    match k
    case Wedged => g.Well? || g.Warming? || g.Sick?
    case Ailing => g.Well?
  }

  /** How many of the polls from..to, the latter included, add to the streak. */
  function Count(k: Streak, sights: nat -> Sight, from: nat, to: nat): nat
    decreases to
  {
    if to < from then 0
    else (if Adds(k, sights(to)) then 1 else 0) + (if to == 0 then 0 else Count(k, sights, from, to - 1))
  }

  /** A full streak ends at poll `to`: that poll adds to it, and reaching back over polls none of which resets it,
      enough polls do. */
  ghost predicate FullStreakAt(k: Streak, limit: int, sights: nat -> Sight, to: nat) {
    Adds(k, sights(to)) &&
    exists from :: 1 <= from <= to && Count(k, sights, from, to) >= limit && forall p :: from <= p <= to ==>
        !Resets(k, sights(p))
  }

  /*** All containers ***/

  function RestartDelta(base: Snapshot, c: Container): int {
    if Present(base, c.id) then c.restarts - base[Find(base, c.id)].restarts else c.restarts
  }

  /** Nothing about this container ends the watch at once. */
  predicate Tolerable(opts: Options, base: Snapshot, c: Container) {
    && (c.phase.Exited? ==> c.Completed())
    && !c.phase.Dead? && !c.phase.Removing?
    && RestartDelta(base, c) <= opts.tolerance
  }

  predicate Populated(opts: Options, s: Snapshot) {
    !opts.expectContainers || |s| > 0
  }

  predicate KeepsAll(base: Snapshot, s: Snapshot) {
    forall i :: 0 <= i < |base| ==> Present(s, base[i].id)
  }

  predicate Passes(c: Container, tolerateStarting: bool, tolerateRestarting: bool) {
    || c.Completed()
    || (tolerateRestarting && c.phase.Restarting?)
    || (c.phase.Running? && ((tolerateStarting && c.probe.Starting?) || c.Fine()))
  }

  predicate AllPass(s: Snapshot, tolerateStarting: bool, tolerateRestarting: bool) {
    forall i :: 0 <= i < |s| ==> Passes(s[i], tolerateStarting, tolerateRestarting)
  }

  function SightsOf(shots: nat -> Snapshot, id: Id): nat -> Sight {
    (p: nat) => Sighting(shots(p), id)
  }

  ghost predicate NoFullStreak(opts: Options, shots: nat -> Snapshot, id: Id, p: nat) {
    && !FullStreakAt(Wedged, opts.streakLimit, SightsOf(shots, id), p)
    && !FullStreakAt(Ailing, opts.streakLimit, SightsOf(shots, id), p)
  }

  /** Poll p ends nothing. Poll 0 is the baseline. */
  ghost predicate PollOk(opts: Options, shots: nat -> Snapshot, p: nat) {
    && Populated(opts, shots(p))
    && KeepsAll(shots(0), shots(p))
    && (forall i :: 0 <= i < |shots(p)| ==> Tolerable(opts, shots(0), shots(p)[i]))
    && (forall i :: 0 <= i < |shots(p)| ==> NoFullStreak(opts, shots, shots(p)[i].id, p))
  }

  ghost predicate PollsOk(opts: Options, shots: nat -> Snapshot, n: nat) {
    forall p :: 1 <= p <= n ==> PollOk(opts, shots, p)
  }

  /** The verdict after n polls: none of them ends the watch, and the last snapshot passes the final check, which a
      container that is still starting does not. */
  ghost predicate HealthyAfter(opts: Options, shots: nat -> Snapshot, n: nat) {
    && Populated(opts, shots(0))
    && PollsOk(opts, shots, n)
    && AllPass(shots(n), false, true)
  }

  /*** The counter that stands for a streak ***/

  /** What the watch keeps per container: the length of the streak that the polls up to p leave. */
  function Length(k: Streak, sights: nat -> Sight, p: nat): nat {
    if p == 0 then 0
    else if Resets(k, sights(p)) then 0
    else Length(k, sights, p - 1) + if Adds(k, sights(p)) then 1 else 0
  }

  lemma {:induction false} LengthBounds(k: Streak, sights: nat -> Sight, from: nat, p: nat)
    requires 1 <= from && (forall q :: from <= q <= p ==> !Resets(k, sights(q)))
    ensures Count(k, sights, from, p) <= Length(k, sights, p)
    decreases p
  {
    if from <= p {
      LengthBounds(k, sights, from, p - 1);
    }
  }

  lemma {:induction false} LengthAttained(k: Streak, sights: nat -> Sight, p: nat) returns (from: nat)
    ensures 1 <= from <= p + 1 && (forall q :: from <= q <= p ==> !Resets(k, sights(q)))
    ensures Count(k, sights, from, p) == Length(k, sights, p)
  {
    if p == 0 || Resets(k, sights(p)) {
      from := p + 1;
    } else {
      from := LengthAttained(k, sights, p - 1);
    }
  }

  /** The counter reaches the limit exactly when a full streak ends. */
  lemma LengthIsStreak(k: Streak, limit: int, sights: nat -> Sight, p: nat)
    requires p >= 1
    ensures FullStreakAt(k, limit, sights, p) <==> Adds(k, sights(p)) && Length(k, sights, p) >= limit
  {
    var from := LengthAttained(k, sights, p);
    if FullStreakAt(k, limit, sights, p) {
      var f :| 1 <= f <= p && Count(k, sights, f, p) >= limit && forall q :: f <= q <= p ==> !Resets(k, sights(q));
      LengthBounds(k, sights, f, p);
    }
    if Adds(k, sights(p)) && Length(k, sights, p) >= limit {
      assert from <= p;
    }
  }

  lemma {:induction false} LengthSame(k: Streak, a: nat -> Sight, b: nat -> Sight, p: nat)
    requires forall q :: 1 <= q <= p ==> a(q) == b(q)
    ensures Length(k, a, p) == Length(k, b, p)
  {
    if p > 0 {
      LengthSame(k, a, b, p - 1);
    }
  }

  /*** One container at a time ***/

  /** The snapshot as it would be if only this container existed. */
  function Only(s: Snapshot, id: Id): Snapshot {
    if Present(s, id) then [s[Find(s, id)]] else []
  }

  function OnlyIn(shots: nat -> Snapshot, id: Id): nat -> Snapshot {
    (p: nat) => Only(shots(p), id)
  }

  lemma OnlyFinds(s: Snapshot, id: Id, other: Id)
    ensures Present(Only(s, id), other) <==> other == id && Present(s, id)
    ensures Present(s, id) ==> Present(Only(s, id), id) && Only(s, id)[Find(Only(s, id), id)] == s[Find(s, id)]
    ensures Sighting(Only(s, id), id) == Sighting(s, id)
  {
    if Present(s, id) {
      assert Only(s, id)[0].id == id;
    }
  }

  lemma UniqueFind(s: Snapshot, i: nat)
    requires UniqueIds(s) && i < |s|
    ensures Present(s, s[i].id) && Find(s, s[i].id) == i
  {
  }

  lemma OnlyStreaks(opts: Options, shots: nat -> Snapshot, id: Id, p: nat)
    requires p >= 1
    ensures NoFullStreak(opts, OnlyIn(shots, id), id, p) <==> NoFullStreak(opts, shots, id, p)
  {
    var a, b := SightsOf(OnlyIn(shots, id), id), SightsOf(shots, id);
    forall q: nat ensures a(q) == b(q) { OnlyFinds(shots(q), id, id); }
    forall k ensures FullStreakAt(k, opts.streakLimit, a, p) <==> FullStreakAt(k, opts.streakLimit, b, p) {
      LengthSame(k, a, b, p);
      LengthIsStreak(k, opts.streakLimit, a, p);
      LengthIsStreak(k, opts.streakLimit, b, p);
    }
  }

  /** One poll passes exactly when it passes for every container by itself. */
  lemma PollDecomposes(opts: Options, shots: nat -> Snapshot, p: nat)
    requires p >= 1 && !opts.expectContainers && UniqueIds(shots(0)) && UniqueIds(shots(p))
    ensures PollOk(opts, shots, p) <==> forall id :: PollOk(opts, OnlyIn(shots, id), p)
  {
    if PollOk(opts, shots, p) {
      forall id ensures PollOk(opts, OnlyIn(shots, id), p) {
        PollProjects(opts, shots, id, p);
      }
    }
    if forall id :: PollOk(opts, OnlyIn(shots, id), p) {
      forall i | 0 <= i < |shots(0)| ensures Present(shots(p), shots(0)[i].id) {
        var id := shots(0)[i].id;
        assert PollOk(opts, OnlyIn(shots, id), p);
        OnlyFinds(shots(0), id, id);
        OnlyFinds(shots(p), id, id);
        assert Only(shots(0), id)[0].id == id;
      }
      forall i | 0 <= i < |shots(p)|
        ensures Tolerable(opts, shots(0), shots(p)[i]) && NoFullStreak(opts, shots, shots(p)[i].id, p)
      {
        var id := shots(p)[i].id;
        assert PollOk(opts, OnlyIn(shots, id), p);
        UniqueFind(shots(p), i);
        OnlyFinds(shots(0), id, id);
        OnlyStreaks(opts, shots, id, p);
        assert Only(shots(p), id)[0] == shots(p)[i];
      }
    }
  }

  lemma PollProjects(opts: Options, shots: nat -> Snapshot, id: Id, p: nat)
    requires p >= 1 && !opts.expectContainers && PollOk(opts, shots, p)
    ensures PollOk(opts, OnlyIn(shots, id), p)
  {
    OnlyFinds(shots(0), id, id);
    OnlyFinds(shots(p), id, id);
    OnlyStreaks(opts, shots, id, p);
  }

  /** The watch decomposes per container: failures of different containers never combine into one. */
  lemma WatchDecomposes(opts: Options, shots: nat -> Snapshot, n: nat)
    requires n >= 1 && !opts.expectContainers && forall p :: 0 <= p <= n ==> UniqueIds(shots(p))
    ensures HealthyAfter(opts, shots, n) <==> forall id :: HealthyAfter(opts, OnlyIn(shots, id), n)
  {
    if HealthyAfter(opts, shots, n) {
      forall id ensures HealthyAfter(opts, OnlyIn(shots, id), n) {
        forall p | 1 <= p <= n ensures PollOk(opts, OnlyIn(shots, id), p) {
          PollProjects(opts, shots, id, p);
        }
      }
    }
    if forall id :: HealthyAfter(opts, OnlyIn(shots, id), n) {
      forall p | 1 <= p <= n ensures PollOk(opts, shots, p) {
        forall id ensures PollOk(opts, OnlyIn(shots, id), p) {
          assert HealthyAfter(opts, OnlyIn(shots, id), n);
        }
        PollDecomposes(opts, shots, p);
      }
      forall i | 0 <= i < |shots(n)| ensures Passes(shots(n)[i], false, true) {
        var id := shots(n)[i].id;
        assert HealthyAfter(opts, OnlyIn(shots, id), n);
        UniqueFind(shots(n), i);
        assert Only(shots(n), id)[0] == shots(n)[i];
      }
    }
  }

  /*** The verdict in the containers' own fields ***/

  /** Nothing that a container of a polled snapshot may be when the verdict is Healthy. */
  lemma HealthyHasNoFailures(opts: Options, shots: nat -> Snapshot, n: nat, p: nat, i: nat)
    requires HealthyAfter(opts, shots, n) && 1 <= p <= n && i < |shots(p)|
    ensures var c := shots(p)[i];
      && !(c.phase == Exited && c.exitCode != 0) && c.phase != Dead && c.phase != Removing
  {
    assert PollOk(opts, shots, p);
    assert Tolerable(opts, shots(0), shots(p)[i]);
  }

  /** A container has not restarted more often than tolerated since the baseline, or at all when it is not part of it.
      */
  lemma HealthyHasFewRestarts(opts: Options, shots: nat -> Snapshot, n: nat, p: nat, i: nat)
    requires HealthyAfter(opts, shots, n) && UniqueIds(shots(0)) && 1 <= p <= n && i < |shots(p)|
    ensures forall b :: 0 <= b < |shots(0)| && shots(0)[b].id == shots(p)[i].id ==>
      shots(p)[i].restarts <= shots(0)[b].restarts + opts.tolerance
    ensures (forall b :: 0 <= b < |shots(0)| ==> shots(0)[b].id != shots(p)[i].id) ==>
      shots(p)[i].restarts <= opts.tolerance
  {
    assert PollOk(opts, shots, p);
    assert Tolerable(opts, shots(0), shots(p)[i]);
    forall b | 0 <= b < |shots(0)| && shots(0)[b].id == shots(p)[i].id
      ensures shots(p)[i].restarts <= shots(0)[b].restarts + opts.tolerance
    {
      UniqueFind(shots(0), b);
    }
  }

  /** The final check: every container has exited well, is restarting, or runs with a probe that is absent or healthy.
      */
  lemma FinalCheckMeans(s: Snapshot)
    ensures AllPass(s, false, true) <==>
      forall i :: 0 <= i < |s| ==>
        || (s[i].phase == Exited && s[i].exitCode == 0)
        || s[i].phase == Restarting
        || (s[i].phase == Running && (s[i].probe == Blank || s[i].probe == None || s[i].probe == Healthy))
  {
    if AllPass(s, false, true) {
      forall i | 0 <= i < |s|
        ensures
          || (s[i].phase == Exited && s[i].exitCode == 0)
          || s[i].phase == Restarting
          || (s[i].phase == Running && (s[i].probe == Blank || s[i].probe == None || s[i].probe == Healthy))
      {
        assert Passes(s[i], false, true);
      }
    }
  }

  /** Containers that all stay, run and are fine, and do not restart beyond tolerance, make a Healthy verdict. */
  lemma FineIsHealthy(opts: Options, shots: nat -> Snapshot, n: nat)
    requires forall p :: 0 <= p <= n ==>
      UniqueIds(shots(p)) && Populated(opts, shots(p)) && KeepsAll(shots(0), shots(p))
    requires forall p, i :: 0 <= p <= n && 0 <= i < |shots(p)| ==>
      && shots(p)[i].phase == Running
      && (shots(p)[i].probe == Blank || shots(p)[i].probe == None || shots(p)[i].probe == Healthy)
      && RestartDelta(shots(0), shots(p)[i]) <= opts.tolerance
    ensures HealthyAfter(opts, shots, n)
  {
    forall p | 1 <= p <= n ensures PollOk(opts, shots, p) {
      forall i | 0 <= i < |shots(p)| ensures NoFullStreak(opts, shots, shots(p)[i].id, p) {
        UniqueFind(shots(p), i);
        assert SightsOf(shots, shots(p)[i].id)(p) == Well;
      }
    }
  }

  /** This poll shows the container, and it does not run although it has not exited well. */
  predicate ShowsStuck(s: Snapshot, id: Id) {
    exists i :: 0 <= i < |s| && s[i].id == id && s[i].phase != Running && !(s[i].phase == Exited && s[i].exitCode == 0)
  }

  /** This poll shows it running with a failing healthcheck. */
  predicate ShowsSick(s: Snapshot, id: Id) {
    exists i :: 0 <= i < |s| && s[i].id == id && s[i].phase == Running &&
      s[i].probe != Blank && s[i].probe != None && s[i].probe != Healthy && s[i].probe != Starting
  }

  lemma ShownSight(s: Snapshot, id: Id)
    requires UniqueIds(s)
    ensures ShowsStuck(s, id) <==> Sighting(s, id) == Stuck
    ensures ShowsSick(s, id) <==> Sighting(s, id) == Sick
  {
    if Present(s, id) {
      var k := Find(s, id);
      forall i | 0 <= i < |s| && s[i].id == id ensures i == k { UniqueFind(s, i); }
      assert s[k].id == id;
    }
  }

  lemma {:induction false} CountAll(k: Streak, sights: nat -> Sight, from: nat, last: nat)
    requires from <= last + 1 && forall p :: from <= p <= last ==> Adds(k, sights(p))
    ensures Count(k, sights, from, last) == last + 1 - from
    decreases last
  {
    if 0 < last && from <= last {
      CountAll(k, sights, from, last - 1);
    }
  }

  /** As many polls in a row as the limit showing one container stuck, or one container sick, fail the watch. */
  lemma SteadyTroubleFails(opts: Options, shots: nat -> Snapshot, n: nat, id: Id, from: nat, to: nat)
    requires 1 <= from <= to <= n && to + 1 - from >= opts.streakLimit
    requires forall p :: from <= p <= to ==> UniqueIds(shots(p))
    requires (forall p :: from <= p <= to ==> ShowsStuck(shots(p), id))
        || (forall p :: from <= p <= to ==> ShowsSick(shots(p), id))
    ensures !HealthyAfter(opts, shots, n)
  {
    var k := if ShowsStuck(shots(to), id) then Wedged else Ailing;
    var sights := SightsOf(shots, id);
    forall p | from <= p <= to ensures Adds(k, sights(p)) && !Resets(k, sights(p)) {
      ShownSight(shots(p), id);
      ShownSight(shots(to), id);
    }
    CountAll(k, sights, from, to);
    assert FullStreakAt(k, opts.streakLimit, sights, to);
    var i := Find(shots(to), id);
    assert !NoFullStreak(opts, shots, shots(to)[i].id, to);
    assert !PollOk(opts, shots, to);
  }
}
