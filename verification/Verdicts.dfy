/** From polls to the protocol: what the one verdict of watchStacks says about the containers of every stack. */
module Verdicts {
  import Spec = HealthSpec
  import Loop = HealthWatch
  import Pool = WatchPool
  import opened Records
  import P = Protocol

  /** The watch of one stack: what it meets, its options, and the poll the clock lets be its last. */
  datatype Watch = Watch(feed: Loop.Feed, opts: Spec.Options, last: nat)

  /** A disabled watch, or one whose calls are all answered and whose snapshots meet the specification. */
  ghost predicate Healthy(w: Watch) {
    w.opts.duration <= 0 || (Loop.AllAnswered(w.feed, w.last) && Spec.HealthyAfter(w.opts, w.feed.Shots(), w.last))
  }

  /** What the polling loop is proved to report for it. */
  ghost predicate Reports(w: Watch, r: Loop.Report) {
    if w.opts.duration <= 0 then r == Loop.Verdict(true) else Loop.Meets(w.feed, w.opts, w.last, r)
  }

  /** A worker that finished carries what the loop reports for its stack. */
  ghost predicate Truthful(s: Pool.Pool, watches: seq<Watch>) {
    |watches| == |s.phases| &&
    forall i, healthy :: 0 <= i < |watches| && s.phases[i] == Pool.Finished(Pool.Verdict(healthy)) ==>
        Reports(watches[i], Loop.Verdict(healthy))
  }

  lemma ReportIsHealth(w: Watch, healthy: bool)
    requires Reports(w, Loop.Verdict(healthy))
    ensures healthy <==> Healthy(w)
  {
  }

  /** In every interleaving, a combined verdict is Healthy exactly when every stack is, poll by poll; and if it is
      not, the stacks it names are not. */
  lemma VerdictIsHealth(n: nat, steps: seq<Pool.Step>, s: Pool.Pool, gone: nat -> bool, watches: seq<Watch>)
    requires Pool.Reaches(Pool.Start(n), steps, s) && s.Joined() && Pool.Later(s, gone) && Truthful(s, watches)
    ensures Pool.Inv(s) && |watches| == n
    ensures var c := Pool.Fold(Pool.ResultsOf(s), gone);
      c.Combined? ==>
        && (c.healthy <==> forall i :: 0 <= i < n ==> Healthy(watches[i]))
        && forall i :: i in c.failed ==> i < n && !Healthy(watches[i])
  {
    Pool.VerdictIsTrue(n, steps, s, gone);
    hide Reports, Healthy, Pool.Fold, Pool.Reaches, Pool.Inv;
    forall i, healthy | 0 <= i < n && s.phases[i] == Pool.Finished(Pool.Verdict(healthy))
        ensures healthy <==> Healthy(watches[i]) {
      ReportIsHealth(watches[i], healthy);
    }
    var c := Pool.Fold(Pool.ResultsOf(s), gone);
    if c.Combined? && !c.healthy {
      assert c.failed[0] in c.failed;
    }
  }

  /** What a run records as healthy was healthy: the stacks it adds to its evidence after a watch, when the watch's
      verdict is the combined one. */
  lemma EvidenceIsHealth(w: P.World, env: P.Env, names: seq<Name>, steps: seq<Pool.Step>, s: Pool.Pool,
      gone: nat -> bool, watches: seq<Watch>)
    requires Pool.Reaches(Pool.Start(|names|), steps, s) && s.Joined() && Pool.Later(s, gone) && Truthful(s, watches)
    requires Pool.Inv(s) && Pool.Fold(Pool.ResultsOf(s), gone).Combined?
        && env.sound(w.tick) == Pool.Fold(Pool.ResultsOf(s), gone).healthy
    ensures var seen := P.Watch(w, env, names).w.seen;
      seen.healthy != w.seen.healthy ==>
          |watches| == |names| && forall i :: 0 <= i < |names| ==> names[i] in seen.healthy && Healthy(watches[i])
  {
    VerdictIsHealth(|names|, steps, s, gone, watches);
    hide Healthy, Pool.Fold, Pool.Reaches, Pool.Inv, Truthful;
  }
}
