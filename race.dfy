/**
 * Several agents racing to promote the one slave. Each attempt of
 * `promote_slave` is two separate turns of its agent: the reply that finds the
 * key absent (EXISTS, then WATCH and GET) and the reply to EXEC. Between them
 * any other agent may run, and a newly connecting agent may DEL the key. The
 * store's WATCH makes EXEC the compare-and-swap of `ExecIfAbsent`.
 */
module PromotionRace {
  import opened Base
  import opened RedisStore

  datatype RaceStep =
    | Check(who: nat)            // EXISTS/GET reply: the attempt goes on only if the key is absent
    | Exec(who: nat, at: Time)   // EXEC reply for an attempt that got past its check
    | Delete                     // `DEL failover:promoted_at` from an agent connecting

  /** The key, the agents between their check and their EXEC, and the agents whose EXEC committed, in order. */
  datatype Race = Race(key: Option<Time>, watching: set<nat>, winners: seq<nat>)

  function Apply(r: Race, s: RaceStep): (next: Race) {
    match s
    case Check(i) =>
      if r.key.None? then r.(watching := r.watching + {i}) else r.(watching := r.watching - {i})
    case Exec(i, at) =>
      if i !in r.watching then r
      else
        var cas := ExecIfAbsent(r.key, at);
        Race(cas.key, r.watching - {i}, if cas.committed then r.winners + [i] else r.winners)
    case Delete => r.(key := None)
  }

  function RunRace(r: Race, steps: seq<RaceStep>): (end: Race)
    decreases |steps|
  {
    if steps == [] then r else RunRace(Apply(r, steps[0]), steps[1..])
  }

  predicate NoDelete(steps: seq<RaceStep>) {
    forall j :: 0 <= j < |steps| ==> !steps[j].Delete?
  }

  lemma NoDeleteSuffix(steps: seq<RaceStep>, k: nat)
    requires NoDelete(steps) && k <= |steps|
    ensures NoDelete(steps[k..])
  {
    forall j | 0 <= j < |steps| - k ensures !steps[k..][j].Delete? {
      assert steps[k..][j] == steps[k + j];
    }
  }

  /**
   * Without a DEL in between, however the agents' turns interleave, at most one
   * EXEC commits; a key already present lets none commit and is left as it was;
   * a key initially absent is set exactly when someone won.
   */
  lemma {:induction false} AtMostOneWinner(r: Race, steps: seq<RaceStep>)
    requires NoDelete(steps)
    requires r.key.None? <==> r.winners == []
    requires |r.winners| <= 1
    ensures var end := RunRace(r, steps);
      && |end.winners| <= 1
      && (end.key.None? <==> end.winners == [])
      && (r.key.Some? ==> end.key == r.key && end.winners == r.winners)
    decreases |steps|
  {
    if steps != [] {
      var next := Apply(r, steps[0]);
      NoDeleteSuffix(steps, 1);
      assert r.key.Some? ==> next.key == r.key && next.winners == r.winners;
      AtMostOneWinner(next, steps[1..]);
    }
  }

  /** Once the key is present and nobody deletes it, it stays present and no one else wins. */
  lemma {:induction false} KeyStays(r: Race, steps: seq<RaceStep>)
    requires NoDelete(steps)
    requires r.key.Some?
    ensures RunRace(r, steps).key == r.key
    ensures RunRace(r, steps).winners == r.winners
    decreases |steps|
  {
    if steps != [] {
      NoDeleteSuffix(steps, 1);
      KeyStays(Apply(r, steps[0]), steps[1..]);
    }
  }

  lemma RunRaceSplit(r: Race, steps: seq<RaceStep>, k: nat)
    requires k <= |steps|
    ensures RunRace(r, steps) == RunRace(RunRace(r, steps[..k]), steps[k..])
    decreases k
  {
    if k > 0 {
      assert steps[..k][0] == steps[0];
      assert steps[..k][1..] == steps[1..][..k - 1];
      assert steps[k..] == steps[1..][k - 1..];
      RunRaceSplit(Apply(r, steps[0]), steps[1..], k - 1);
    }
  }

  /**
   * Starting from an absent key, as soon as one agent that got past its check
   * reaches EXEC, there is exactly one winner at the end.
   */
  lemma ExecutedAttemptYieldsOneWinner(steps: seq<RaceStep>, k: nat)
    requires NoDelete(steps)
    requires k < |steps| && steps[k].Exec?
    requires steps[k].who in RunRace(Race(None, {}, []), steps[..k]).watching
    ensures |RunRace(Race(None, {}, []), steps).winners| == 1
  {
    var r0 := Race(None, {}, []);
    var before := RunRace(r0, steps[..k]);
    assert NoDelete(steps[..k]) by {
      forall j | 0 <= j < k ensures !steps[..k][j].Delete? {
        assert steps[..k][j] == steps[j];
      }
    }
    AtMostOneWinner(r0, steps[..k]);
    var after := Apply(before, steps[k]);
    assert after.key.Some?;
    assert after.key.None? <==> after.winners == [];
    assert steps[k..][0] == steps[k];
    assert RunRace(before, steps[k..]) == RunRace(after, steps[k + 1..]) by {
      assert steps[k..][1..] == steps[k + 1..];
    }
    NoDeleteSuffix(steps, k + 1);
    KeyStays(after, steps[k + 1..]);
    RunRaceSplit(r0, steps, k);
  }

  /** The two clients of the failover test: both pass their checks, both execute; only the first wins. */
  lemma TwoClientsOneFailover(at: Time)
    ensures RunRace(Race(None, {}, []), [Check(1), Check(2), Exec(1, at), Exec(2, at)]).winners == [1]
  {
    var steps := [Check(1), Check(2), Exec(1, at), Exec(2, at)];
    var r1 := Apply(Race(None, {}, []), Check(1));
    var r2 := Apply(r1, Check(2));
    assert r2.watching == {1, 2};
    var r3 := Apply(r2, Exec(1, at));
    assert r3.watching == {2} && r3.winners == [1];
    var r4 := Apply(r3, Exec(2, at));
    assert r4.winners == [1];
    assert RunRace(r4, steps[4..]) == r4;
    assert RunRace(r3, steps[3..]) == r4 by { assert steps[3..][1..] == steps[4..]; }
    assert RunRace(r2, steps[2..]) == r4 by { assert steps[2..][1..] == steps[3..]; }
    assert RunRace(r1, steps[1..]) == r4 by { assert steps[1..][1..] == steps[2..]; }
  }

  /**
   * The at-most-once guarantee lasts only until the key is deleted: a DEL from
   * an agent connecting after a promotion lets a second promotion commit.
   */
  lemma DeleteReopensPromotion(at: Time)
    ensures RunRace(Race(None, {}, []), [Check(1), Exec(1, at), Delete, Check(2), Exec(2, at)]).winners == [1, 2]
  {
    var steps := [Check(1), Exec(1, at), Delete, Check(2), Exec(2, at)];
    var r1 := Apply(Race(None, {}, []), Check(1));
    var r2 := Apply(r1, Exec(1, at));
    assert r2.key == Some(at) && r2.winners == [1];
    var r3 := Apply(r2, Delete);
    var r4 := Apply(r3, Check(2));
    assert 2 in r4.watching && r4.key.None?;
    var r5 := Apply(r4, Exec(2, at));
    assert r5.winners == [1, 2];
    assert RunRace(r5, steps[5..]) == r5;
    assert RunRace(r4, steps[4..]) == r5 by { assert steps[4..][1..] == steps[5..]; }
    assert RunRace(r3, steps[3..]) == r5 by { assert steps[3..][1..] == steps[4..]; }
    assert RunRace(r2, steps[2..]) == r5 by { assert steps[2..][1..] == steps[3..]; }
    assert RunRace(r1, steps[1..]) == r5 by { assert steps[1..][1..] == steps[2..]; }
  }
}
