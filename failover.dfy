/**
 * One failover agent watching a Redis master/slave pair. Every EventMachine
 * callback runs to completion before the next one starts, so each handler below
 * is one sequential step over the agent's fields and the shared store; what the
 * handler sends out (publishes, callbacks, timers, closed connections) is
 * returned as a list of effects.
 */
module FailoverCore {
  import opened Base
  import opened RubyString
  import opened RedisStore

  /** A pong less than this many seconds old counts as recent. */
  const FreshWindow: int := 10

  datatype Endpoint = Endpoint(host: string, port: int)

  /** The `:master` and `:slave` options, with host and port as the client library parses them. */
  datatype Options = Options(master: Endpoint, slave: Endpoint)

  /** `client_id`: host name, process id and the per-process construction number. */
  datatype ClientId = ClientId(hostname: string, pid: int, counter: nat)

  datatype Channel = PromotedChannel | GossipRequestChannel | GossipResponseChannel

  datatype Message = Message(channel: Channel, sender: ClientId)

  datatype Effect =
    | Publish(msg: Message)          // PUBLISH on the slave connection
    | CallOnConnect(target: Endpoint) // callback(:on_connect, url)
    | CallOnFailover                 // callback(:on_failover)
    | CloseMaster                    // @master.close_connection
    | CloseSubscriber                // @subscriber.close_connection
    | PingMaster                     // PING on the master connection
    | SchedulePing                   // a ping again in 1 second
    | ScheduleHealthCheck            // check_health again in 5 seconds

  /** The fields of the slave's INFO reply that the agent reads; each may be missing. */
  datatype Info = Info(role: Option<string>, masterHost: Option<string>, masterPort: Option<string>)

  function ChannelName(c: Channel): (name: string) {
    match c
    case PromotedChannel => "failover:promoted"
    case GossipRequestChannel => "failover:gossip_request"
    case GossipResponseChannel => "failover:gossip_response"
  }

  /** The `case channel` of the message handler: one of the three names, or nothing. */
  function ParseChannel(name: string): (c: Option<Channel>)
    ensures c.Some? ==> ChannelName(c.value) == name
    ensures c.None? ==> forall ch: Channel :: ChannelName(ch) != name
  {
    if name == "failover:promoted" then Some(PromotedChannel)
    else if name == "failover:gossip_request" then Some(GossipRequestChannel)
    else if name == "failover:gossip_response" then Some(GossipResponseChannel)
    else None
  }

  lemma ParseChannelName(c: Channel)
    ensures ParseChannel(ChannelName(c)) == Some(c)
  {
  }

  /** `last_pong_age`: seconds since the last pong, nil when no pong ever arrived. */
  function LastPongAge(lastPong: Option<Time>, now: Time): (age: Option<int>)
    ensures age.None? <==> lastPong.None?
    ensures age.Some? ==> lastPong.value + age.value == now
  {
    match lastPong
    case None => None
    case Some(t) => Some(now - t)
  }

  /** `seen_master_recently?`: a missing pong counts as not recent. */
  function SeenMasterRecently(lastPong: Option<Time>, now: Time): (recent: bool)
    ensures recent <==> lastPong.Some? && now - lastPong.value < FreshWindow
  {
    match LastPongAge(lastPong, now)
    case None => false
    case Some(age) => age < FreshWindow
  }

  /** The three ways `check_health` can go. */
  datatype Verdict = Healthy | PutOnProbation | Promote

  function CheckVerdict(probation: bool, lastPong: Option<Time>, now: Time): (v: Verdict)
    ensures v == Healthy <==> SeenMasterRecently(lastPong, now)
    ensures v == PutOnProbation <==> !SeenMasterRecently(lastPong, now) && !probation
    ensures v == Promote <==> !SeenMasterRecently(lastPong, now) && probation
  {
    if SeenMasterRecently(lastPong, now) then Healthy
    else if probation then Promote
    else PutOnProbation
  }

  /** The agent's own mutable state: `@probation` (nil reads as false) and `@last_pong`. */
  datatype Local = Local(probation: bool, lastPong: Option<Time>)

  /** What can happen to an agent, one callback at a time. */
  datatype Input =
    | MasterConnected
    | HealthCheck(now: Time)
    | Pong(now: Time)
    | GossipRequest(now: Time)
    | GossipResponse
    | Promoted

  /**
   * How one callback changes the agent's own state. A stale health check puts
   * the master on probation (and leaves it there); a pong only refreshes the
   * timestamp; a gossip response from anyone clears probation; the master
   * connection coming up, requests and the promotion announcement leave the
   * state alone.
   */
  function Step(s: Local, i: Input): (r: Local)
    ensures r.lastPong == if i.Pong? then Some(i.now) else s.lastPong
    ensures i.HealthCheck? ==> r.probation == (s.probation || !SeenMasterRecently(s.lastPong, i.now))
    ensures i.GossipResponse? ==> !r.probation
    ensures i.MasterConnected? || i.Pong? || i.GossipRequest? || i.Promoted? ==> r.probation == s.probation
  {
    match i
    case MasterConnected => s
    case HealthCheck(now) =>
      if CheckVerdict(s.probation, s.lastPong, now) == PutOnProbation then s.(probation := true) else s
    case Pong(now) => s.(lastPong := Some(now))
    case GossipResponse => s.(probation := false)
    case GossipRequest(_) => s
    case Promoted => s
  }

  /** What the promotion transaction emits: the announcement and the failover callback, on commit only. */
  function PromotionEffects(committed: bool, id: ClientId): (effects: seq<Effect>)
    ensures CallOnFailover in effects <==> committed
    ensures multiset(effects)[CallOnFailover] == if committed then 1 else 0
    ensures committed ==> Publish(Message(PromotedChannel, id)) in effects
    ensures !committed ==> effects == []
  {
    if committed then [Publish(Message(PromotedChannel, id)), CallOnFailover] else []
  }

  /** How the slave's INFO reply is read on connect. */
  datatype SlaveState = AlreadyPromoted | FollowsMaster | FollowsOther

  function ClassifySlave(master: Endpoint, info: Info): (st: SlaveState)
    ensures st == AlreadyPromoted <==> info.role == Some("master")
    ensures st == FollowsMaster <==>
      info.role != Some("master") && info.masterHost == Some(master.host) && master.port == NilToI(info.masterPort)
  {
    if info.role == Some("master") then AlreadyPromoted
    else if Some(master.host) == info.masterHost && master.port == NilToI(info.masterPort) then FollowsMaster
    else FollowsOther
  }

  /**
   * The endpoint announced on connect: the slave only when it already reports
   * role master; a slave following the wrong master still yields the master.
   */
  function ConnectTarget(opts: Options, info: Info): (target: Endpoint)
    ensures info.role == Some("master") ==> target == opts.slave
    ensures info.role != Some("master") ==> target == opts.master
  {
    match ClassifySlave(opts.master, info)
    case AlreadyPromoted => opts.slave
    case FollowsMaster => opts.master
    case FollowsOther => opts.master
  }

  /** A slave that reports the configured master, with the port as INFO prints it, is recognised as following it. */
  lemma FollowingSlaveRecognised(master: Endpoint, slaveRole: string, rest: string)
    requires master.port >= 0
    requires slaveRole != "master"
    requires rest == [] || !IsDigit(rest[0])
    ensures ClassifySlave(master, Info(Some(slaveRole), Some(master.host), Some(ShowNat(master.port) + rest))) == FollowsMaster
  {
    ToIShowNat(master.port, rest);
  }

  /** The class variable `@@client_id`: the next construction number in this process. */
  class ClientCounter {
    var next: nat

    constructor ()
      ensures next == 0
    {
      next := 0;
    }
  }

  class Failover {
    const opts: Options
    /** The slave node, reached through `@slave`; it holds the coordination key. */
    const store: Store
    const clientId: ClientId
    var probation: bool
    var lastPong: Option<Time>

    /** `Failover.new`: takes the next construction number; no pong seen, not on probation. */
    constructor (opts: Options, store: Store, counter: ClientCounter, hostname: string, pid: int)
      modifies counter
      ensures this.opts == opts && this.store == store
      ensures clientId == ClientId(hostname, pid, old(counter.next))
      ensures counter.next == old(counter.next) + 1
      ensures Snapshot() == Local(false, None)
    {
      this.opts := opts;
      this.store := store;
      clientId := ClientId(hostname, pid, counter.next);
      probation := false;
      lastPong := None;
      new;
      counter.next := counter.next + 1;
    }

    function Snapshot(): Local
      reads this
    {
      Local(probation, lastPong)
    }

    /** The master connection is up: ping it and start the health checks. */
    method OnMasterConnected() returns (effects: seq<Effect>)
      ensures effects == [PingMaster, ScheduleHealthCheck]
    {
      effects := [PingMaster, ScheduleHealthCheck];
    }

    /** The reply to `ping_master`: record the time and ping again later. */
    method OnPong(now: Time) returns (effects: seq<Effect>)
      modifies this
      ensures Snapshot() == Step(old(Snapshot()), Pong(now))
      ensures lastPong == Some(now) && probation == old(probation)
      ensures effects == [SchedulePing]
    {
      lastPong := Some(now);
      effects := [SchedulePing];
    }

    /** A peer asks whether the master is alive: answer only when it was seen recently. */
    method OnGossipRequest(sender: ClientId, now: Time) returns (effects: seq<Effect>)
      ensures |effects| <= 1
      ensures effects != [] <==> SeenMasterRecently(lastPong, now)
      ensures effects != [] ==> effects[0] == Publish(Message(GossipResponseChannel, clientId))
    {
      effects := [];
      if SeenMasterRecently(lastPong, now) {
        effects := [Publish(Message(GossipResponseChannel, clientId))];
      }
    }

    /** Any gossip response, whoever sent it, lifts probation. */
    method OnGossipResponse(sender: ClientId)
      modifies this
      ensures Snapshot() == Step(old(Snapshot()), GossipResponse)
      ensures !probation && lastPong == old(lastPong)
    {
      probation := false;
    }

    /**
     * `promote_slave`: EXISTS, then WATCH and GET, then the MULTI/EXEC block.
     * The chain of replies is taken as one turn here; the store's atomic EXEC is
     * what makes it safe when several agents interleave.
     */
    method PromoteSlave(now: Time) returns (effects: seq<Effect>)
      modifies store
      ensures var cas := ExecIfAbsent(old(store.promotedAt), now);
        && store.promotedAt == cas.key
        && store.isPrimary == (old(store.isPrimary) || cas.committed)
        && effects == PromotionEffects(cas.committed, clientId)
      ensures CallOnFailover in effects <==> old(store.promotedAt).None?
    {
      effects := [];
      var present := store.Exists();
      if !present {
        var current := store.Get();
        if current.None? {
          var committed := store.ExecPromotion(now);
          effects := PromotionEffects(committed, clientId);
        }
      }
    }

    /**
     * `check_health`: healthy keeps going; the first stale check puts the master
     * on probation and asks the peers; a stale check while on probation promotes
     * and does not reschedule.
     */
    method CheckHealth(now: Time) returns (effects: seq<Effect>)
      modifies this, store
      ensures Snapshot() == Step(old(Snapshot()), HealthCheck(now))
      ensures ScheduleHealthCheck in effects <==> CheckVerdict(old(probation), old(lastPong), now) != Promote
      ensures match CheckVerdict(old(probation), old(lastPong), now)
        case Healthy =>
          effects == [ScheduleHealthCheck] && unchanged(store)
        case PutOnProbation =>
          effects == [Publish(Message(GossipRequestChannel, clientId)), ScheduleHealthCheck] && unchanged(store)
        case Promote =>
          var cas := ExecIfAbsent(old(store.promotedAt), now);
          && effects == PromotionEffects(cas.committed, clientId)
          && store.promotedAt == cas.key
          && store.isPrimary == (old(store.isPrimary) || cas.committed)
    {
      if !SeenMasterRecently(lastPong, now) {
        if probation {
          effects := PromoteSlave(now);
          return;
        } else {
          probation := true;
          effects := [Publish(Message(GossipRequestChannel, clientId))];
        }
      } else {
        effects := [];
      }
      effects := effects + [ScheduleHealthCheck];
    }

    /** `on_slave_connect_failure`: announce the master. */
    method OnSlaveConnectFailure() returns (effects: seq<Effect>)
      ensures effects == [CallOnConnect(opts.master)]
    {
      effects := [CallOnConnect(opts.master)];
    }

    /**
     * The reply to INFO on the slave: a promoted slave is announced as is; a
     * slave following the configured master clears a leftover coordination key
     * and the master is announced; any other slave still yields the master.
     */
    method OnSlaveInfo(info: Info) returns (effects: seq<Effect>)
      modifies store
      ensures effects == [CallOnConnect(ConnectTarget(opts, info))]
      ensures ClassifySlave(opts.master, info) == FollowsMaster ==>
        store.promotedAt.None? && store.isPrimary == old(store.isPrimary)
      ensures ClassifySlave(opts.master, info) != FollowsMaster ==> unchanged(store)
    {
      if info.role == Some("master") {
        effects := [CallOnConnect(opts.slave)];
      } else if Some(opts.master.host) == info.masterHost && opts.master.port == NilToI(info.masterPort) {
        store.Delete();
        effects := [CallOnConnect(opts.master)];
      } else {
        effects := OnSlaveConnectFailure();
      }
    }

    /** A `failover:promoted` announcement: drop the master and the subscriber, announce the slave. */
    method OnPromoted(sender: ClientId) returns (effects: seq<Effect>)
      ensures effects == [CloseMaster, CloseSubscriber, CallOnConnect(opts.slave)]
    {
      effects := [CloseMaster, CloseSubscriber, CallOnConnect(opts.slave)];
    }

    /** The subscriber's message handler: dispatch on the channel name, ignore any other channel. */
    method OnMessage(channel: string, param: ClientId, now: Time) returns (effects: seq<Effect>)
      modifies this
      ensures match ParseChannel(channel)
        case None =>
          effects == [] && Snapshot() == old(Snapshot())
        case Some(PromotedChannel) =>
          effects == [CloseMaster, CloseSubscriber, CallOnConnect(opts.slave)]
          && Snapshot() == Step(old(Snapshot()), Promoted)
        case Some(GossipRequestChannel) =>
          && (effects != [] <==> SeenMasterRecently(old(lastPong), now))
          && effects <= [Publish(Message(GossipResponseChannel, clientId))]
          && Snapshot() == Step(old(Snapshot()), GossipRequest(now))
        case Some(GossipResponseChannel) =>
          effects == [] && Snapshot() == Step(old(Snapshot()), GossipResponse)
    {
      var c := ParseChannel(channel);
      match c
      case None =>
        effects := [];
      case Some(PromotedChannel) =>
        effects := OnPromoted(param);
      case Some(GossipRequestChannel) =>
        effects := OnGossipRequest(param, now);
      case Some(GossipResponseChannel) =>
        OnGossipResponse(param);
        effects := [];
    }
  }

  /** Two agents built in one process get different ids. */
  method NewPair(opts: Options, store: Store, counter: ClientCounter, hostname: string, pid: int)
    returns (a: Failover, b: Failover)
    modifies counter
    ensures a.clientId != b.clientId
    ensures a.store == store && b.store == store
    ensures counter.next == old(counter.next) + 2
  {
    a := new Failover(opts, store, counter, hostname, pid);
    b := new Failover(opts, store, counter, hostname, pid);
  }

  /**
   * Several agents sharing one slave each run `promote_slave` in turn: exactly
   * one of them fails over when the key starts absent, none when it is present.
   */
  method RacePromotions(agents: seq<Failover>, store: Store, now: Time) returns (failovers: nat)
    requires forall i :: 0 <= i < |agents| ==> agents[i].store == store
    modifies store
    ensures failovers <= 1
    ensures failovers == 1 <==> |agents| > 0 && old(store.promotedAt).None?
    ensures store.isPrimary == (old(store.isPrimary) || failovers == 1)
    ensures store.promotedAt == if old(store.promotedAt).None? && |agents| > 0 then Some(now) else old(store.promotedAt)
  {
    failovers := 0;
    var i := 0;
    while i < |agents|
      invariant 0 <= i <= |agents|
      invariant failovers <= 1
      invariant failovers == 1 <==> i > 0 && old(store.promotedAt).None?
      invariant store.promotedAt == if old(store.promotedAt).None? && i > 0 then Some(now) else old(store.promotedAt)
      invariant store.isPrimary == (old(store.isPrimary) || failovers == 1)
    {
      var effects := agents[i].PromoteSlave(now);
      failovers := failovers + multiset(effects)[CallOnFailover];
      i := i + 1;
    }
  }
}
