/**
 * One agent over time. A trace is the sequence of callbacks the event loop
 * delivers to it. Beside the agent's own state, the world records whether the
 * master connection has come up (its callback fires once and starts the health
 * checks) and whether a health check is armed (the 5-second timer of
 * `schedule_health_check`). A `HealthCheck` input while no check is armed is a
 * timer that does not exist, so it changes nothing.
 */
module FailoverTraces {
  import opened Base
  import opened FailoverCore

  datatype World = World(local: Local, started: bool, checkArmed: bool)

  /** A freshly built agent: no pong, not on probation, master not yet connected, no check armed. */
  const Initial: World := World(Local(false, None), false, false)

  /** A check can only be armed once the master connection has started the checks. */
  predicate WellFormed(w: World) {
    w.checkArmed ==> w.started
  }

  function Deliver(w: World, i: Input): (r: World)
    ensures r.local == if i.HealthCheck? && !w.checkArmed then w.local else Step(w.local, i)
    ensures r.started == (w.started || i.MasterConnected?)
    ensures r.checkArmed ==
      if i.HealthCheck? && w.checkArmed then CheckVerdict(w.local.probation, w.local.lastPong, i.now) != Promote
      else if i.MasterConnected? && !w.started then true
      else w.checkArmed
  {
    match i
    case MasterConnected =>
      if w.started then w else w.(started := true, checkArmed := true)
    case HealthCheck(now) =>
      if w.checkArmed then w.(local := Step(w.local, i), checkArmed := CheckVerdict(w.local.probation, w.local.lastPong, now) != Promote)
      else w
    case _ => w.(local := Step(w.local, i))
  }

  function Run(w: World, t: seq<Input>): (end: World)
    decreases |t|
  {
    if t == [] then w else Deliver(Run(w, t[..|t| - 1]), t[|t| - 1])
  }

  /** The world just before the `k`-th input is delivered. */
  function Before(w: World, t: seq<Input>, k: nat): (before: World)
    requires k <= |t|
  {
    Run(w, t[..k])
  }

  lemma BeforeNext(w: World, t: seq<Input>, k: nat)
    requires k < |t|
    ensures Before(w, t, k + 1) == Deliver(Before(w, t, k), t[k])
  {
    assert t[..k + 1][..k] == t[..k];
  }

  /** The `k`-th input is a health check that actually runs. */
  predicate Fired(w: World, t: seq<Input>, k: nat) {
    k < |t| && t[k].HealthCheck? && Before(w, t, k).checkArmed
  }

  function VerdictAt(w: World, t: seq<Input>, k: nat): (v: Verdict)
    requires Fired(w, t, k)
  {
    var s := Before(w, t, k).local;
    CheckVerdict(s.probation, s.lastPong, t[k].now)
  }

  predicate NoResponseIn(t: seq<Input>, lo: nat, hi: nat)
    requires lo <= hi <= |t|
  {
    forall j :: lo <= j < hi ==> !t[j].GossipResponse?
  }

  /** Once on probation, the agent stays there until some gossip response arrives. */
  lemma {:induction false} ProbationPersists(w: World, t: seq<Input>, i: nat, k: nat)
    requires i <= k <= |t|
    requires Before(w, t, i).local.probation
    requires NoResponseIn(t, i, k)
    ensures Before(w, t, k).local.probation
  {
    if k > i {
      ProbationPersists(w, t, i, k - 1);
      BeforeNext(w, t, k - 1);
    }
  }

  /**
   * Probation always has a cause: starting off probation, an agent on probation
   * had an earlier health check that found the master stale and put it there,
   * and no gossip response since.
   */
  lemma {:induction false} ProbationHasCause(w: World, t: seq<Input>, k: nat)
    requires !w.local.probation
    requires k <= |t|
    requires Before(w, t, k).local.probation
    ensures exists i :: 0 <= i < k && Fired(w, t, i) && VerdictAt(w, t, i) == PutOnProbation && NoResponseIn(t, i + 1, k)
  {
    if k > 0 {
      BeforeNext(w, t, k - 1);
      var prev := Before(w, t, k - 1);
      if Fired(w, t, k - 1) && VerdictAt(w, t, k - 1) == PutOnProbation {
        assert NoResponseIn(t, k, k);
      } else {
        assert prev.local.probation;
        ProbationHasCause(w, t, k - 1);
        var i :| 0 <= i < k - 1 && Fired(w, t, i) && VerdictAt(w, t, i) == PutOnProbation && NoResponseIn(t, i + 1, k - 1);
        assert NoResponseIn(t, i + 1, k);
      }
    }
  }

  /**
   * A promotion attempt needs an earlier stale health check that put the master
   * on probation, with no gossip response between the two.
   */
  lemma PromotionNeedsEarlierStaleCheck(w: World, t: seq<Input>, k: nat)
    requires !w.local.probation
    requires Fired(w, t, k) && VerdictAt(w, t, k) == Promote
    ensures exists i :: 0 <= i < k && Fired(w, t, i) && VerdictAt(w, t, i) == PutOnProbation && NoResponseIn(t, i + 1, k)
  {
    ProbationHasCause(w, t, k);
  }

  /** The master is never put on probation twice without a gossip response in between. */
  lemma ProbationNotReentered(w: World, t: seq<Input>, i: nat, k: nat)
    requires i < k
    requires Fired(w, t, i) && VerdictAt(w, t, i) == PutOnProbation
    requires Fired(w, t, k) && VerdictAt(w, t, k) == PutOnProbation
    ensures exists j :: i < j < k && t[j].GossipResponse?
  {
    if forall j :: i < j < k ==> !t[j].GossipResponse? {
      BeforeNext(w, t, i);
      ProbationPersists(w, t, i + 1, k);
      assert false;
    }
  }

  lemma {:induction false} WellFormedStays(w: World, t: seq<Input>, k: nat)
    requires WellFormed(w)
    requires k <= |t|
    ensures WellFormed(Before(w, t, k))
  {
    if k > 0 {
      WellFormedStays(w, t, k - 1);
      BeforeNext(w, t, k - 1);
    }
  }

  /** Before the master connection comes up, no health check runs. */
  lemma {:induction false} NoCheckBeforeMasterConnects(t: seq<Input>, k: nat)
    requires k <= |t|
    requires forall j :: 0 <= j < k ==> !t[j].MasterConnected?
    ensures !Before(Initial, t, k).started && !Before(Initial, t, k).checkArmed
    ensures k < |t| ==> !Fired(Initial, t, k)
  {
    if k > 0 {
      NoCheckBeforeMasterConnects(t, k - 1);
      BeforeNext(Initial, t, k - 1);
    } else {
      assert t[..0] == [];
    }
  }

  /** The first time the master connection comes up, it arms a health check. */
  lemma MasterConnectArmsCheck(t: seq<Input>, k: nat)
    requires k < |t| && t[k].MasterConnected?
    requires forall j :: 0 <= j < k ==> !t[j].MasterConnected?
    ensures Before(Initial, t, k + 1).checkArmed
  {
    NoCheckBeforeMasterConnects(t, k);
    BeforeNext(Initial, t, k);
  }

  /** Once the checks have started and none is armed, none is armed later: nothing re-arms them. */
  lemma {:induction false} StaysDisarmed(w: World, t: seq<Input>, i: nat, k: nat)
    requires i <= k <= |t|
    requires Before(w, t, i).started && !Before(w, t, i).checkArmed
    ensures Before(w, t, k).started && !Before(w, t, k).checkArmed
  {
    if k > i {
      StaysDisarmed(w, t, i, k - 1);
      BeforeNext(w, t, k - 1);
    }
  }

  /** After a health check that promotes, no health check runs again. */
  lemma NoCheckAfterPromotion(w: World, t: seq<Input>, k: nat)
    requires WellFormed(w)
    requires Fired(w, t, k) && VerdictAt(w, t, k) == Promote
    ensures forall j :: k < j < |t| ==> !Fired(w, t, j)
  {
    WellFormedStays(w, t, k);
    BeforeNext(w, t, k);
    forall j | k < j < |t|
      ensures !Fired(w, t, j)
    {
      StaysDisarmed(w, t, k + 1, j);
    }
  }

  /**
   * Health checks other than a promoting one keep the timer armed: while the
   * agent has not promoted, its checks go on.
   */
  lemma ChecksContinueUntilPromotion(w: World, t: seq<Input>, k: nat)
    requires Fired(w, t, k) && VerdictAt(w, t, k) != Promote
    ensures Before(w, t, k + 1).checkArmed
  {
    BeforeNext(w, t, k);
  }

  /** Applying a gossip response twice is applying it once. */
  lemma GossipResponseIdempotent(s: Local)
    ensures Step(Step(s, GossipResponse), GossipResponse) == Step(s, GossipResponse)
  {
  }

  /**
   * A fresh health check in between does not lift probation: after the master
   * connects and answers once, one stale check, a pong, a fresh check, and the
   * next stale check promotes at once.
   */
  lemma FreshCheckKeepsProbation()
    ensures var t := [MasterConnected, Pong(0), HealthCheck(10), Pong(12), HealthCheck(15), HealthCheck(30)];
      && Fired(Initial, t, 2) && VerdictAt(Initial, t, 2) == PutOnProbation
      && Fired(Initial, t, 4) && VerdictAt(Initial, t, 4) == Healthy
      && Fired(Initial, t, 5) && VerdictAt(Initial, t, 5) == Promote
  {
    var t := [MasterConnected, Pong(0), HealthCheck(10), Pong(12), HealthCheck(15), HealthCheck(30)];
    assert t[..0] == [];
    BeforeNext(Initial, t, 0);
    BeforeNext(Initial, t, 1);
    BeforeNext(Initial, t, 2);
    BeforeNext(Initial, t, 3);
    BeforeNext(Initial, t, 4);
  }
}
