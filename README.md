# redis-failover: the failover agent's decision logic in Dafny

`Failover` (failover.rb) is a per-process failure detector and promotion agent
for one Redis master/slave pair. It pings the master, and every five seconds
it checks how old the last pong is. On the first stale check it puts the
master on probation and asks its peers over pub/sub (`failover:gossip_request`).
Any peer that has seen the master recently answers (`failover:gossip_response`),
and any answer lifts probation. A second stale check while still on probation
runs `promote_slave`. That is an optimistic transaction on the slave: it sets
the key `failover:promoted_at`, publishes `failover:promoted` and detaches the
slave (`SLAVEOF NO ONE`), all only if the key is absent. Every agent that hears
`failover:promoted` closes its master and subscriber connections and announces
the slave. On connect the agent reads the slave's INFO to pick the endpoint to
announce.

EventMachine runs each callback to completion before the next one starts. So
each handler is modelled as one sequential step over the agent's fields
(`@probation`, `@last_pong`, `@client_id`) and the one shared key. Each handler
returns the list of effects it sends out: publishes, callbacks, timers and
closed connections.

Files:

- `base.dfy`: module `Base`, with `Option` (Ruby's nil-or-value) and `Time` (whole seconds, `Time.now.to_i`).
- `ruby_string.dfy`: module `RubyString`, Ruby's `String#to_i` and `nil.to_i`, which the agent applies to INFO's `master_port`.
- `store.dfy`: module `RedisStore`, the slave node as a shared `Store` object. It holds the key `failover:promoted_at` and the node's role. Its methods are the commands the agent issues (EXISTS, GET, DEL and the WATCH-guarded MULTI/EXEC). The function `ExecIfAbsent` is the compare-and-swap that EXEC amounts to.
- `failover.dfy`: module `FailoverCore`, with these parts:
  - the `Failover` class, one method per callback;
  - the class counter `@@client_id` as a `ClientCounter` object;
  - the pure decisions (`SeenMasterRecently`, `CheckVerdict`, `ClassifySlave`, `ConnectTarget`);
  - `Step`, which gives the agent's new state for each kind of callback. The methods are proved against it.
- `traces.dfy`: module `FailoverTraces`, one agent over any sequence of callbacks, together with the master connection's one-time callback and the health-check timer. It proves the probation and timer properties.
- `race.dfy`: module `PromotionRace`, several agents whose promotion steps interleave freely on one key. It proves that at most one commit happens.

The model follows the code, including where the code does less than a
failover agent is usually expected to do:

- Gossip from the agent itself is not filtered out. An agent answers its own request if it has since seen the master.
- A peer's staleness is never adopted. The payload of a gossip message is never read.
- There is no `failed` flag. Health checks stop only because a promoting `check_health` does not reschedule itself (failover.rb:188-189). A `failover:promoted` message closes connections but does not stop the checks.
- A successful pong does not lift probation; only a gossip response does. So the two stale checks needed for a promotion need not be consecutive: fresh checks may come between them (`FreshCheckKeepsProbation`).
- A slave that follows some other master is not a reason to disable failover. The agent logs a warning, still announces the master (`on_slave_connect_failure`), and its health checks go on.
- Health checks are armed only by the master connection's callback (failover.rb:49-52). An agent whose master is down from the start never runs a check, so it never fails over (`NoCheckBeforeMasterConnects`). The test at spec/failover_spec.rb:82-93 expects a failover to the slave in that case.
- The connect-time DEL of the coordination key makes "at most one promotion" hold only between deletions (`DeleteReopensPromotion`).

## Model

| member | source | states |
|---|---|---|
| `FailoverCore.LastPongAge` | failover.rb:147-151 | nil exactly when no pong was recorded; otherwise the last pong time plus the age is now |
| `FailoverCore.SeenMasterRecently` | failover.rb:153-156 | true exactly when a pong was recorded and now minus its time is below 10; no pong counts as not recent |
| `FailoverCore.CheckVerdict` | failover.rb:186-194 | healthy exactly when the master was seen recently; promote exactly when stale and on probation; probation exactly when stale and not on probation |
| `FailoverCore.Step` | failover.rb:183-198 | a health check sets probation exactly when the master is stale (and never clears it); a pong only sets the last-pong time; a gossip response clears probation; the master connecting, requests and promotion messages change nothing |
| `FailoverCore.ParseChannel` | failover.rb:93-105 | a recognised name is the name of the returned channel; an unrecognised one names no channel |
| `FailoverCore.ParseChannelName` | failover.rb:87-105 | each of the three subscribed channel names is dispatched to its own channel |
| `FailoverCore.PromotionEffects` | failover.rb:164-172 | `on_failover` is called exactly when the transaction commits; a commit publishes `failover:promoted` with the agent's id; an aborted one emits nothing; `on_failover` appears at most once |
| `FailoverCore.ClassifySlave` | failover.rb:63-81 | already promoted exactly when INFO's role is `master`; follows the master exactly when it is not, INFO's host equals the master's host and `master_port.to_i` equals its port |
| `FailoverCore.ConnectTarget` | failover.rb:57-82 | the slave is announced when its role is `master`; in every other case, a mismatch included, the master is announced |
| `FailoverCore.FollowingSlaveRecognised` | failover.rb:67-68 | a non-master slave reporting the configured host and the port as INFO prints it (with any non-digit text after it) is recognised as following the master |
| `FailoverCore.ClientCounter.constructor` | failover.rb:9 | the per-process counter starts at 0 |
| `FailoverCore.Failover.constructor` | failover.rb:11-28 | the agent takes the counter's current value as its id number and advances the counter by one; it starts with no pong and not on probation |
| `FailoverCore.Failover.OnMasterConnected` | failover.rb:49-52 | the master connection coming up pings the master and arms the health check |
| `FailoverCore.Failover.OnPong` | failover.rb:140-144 | a pong records the current time as the last pong, leaves probation alone and schedules the next ping |
| `FailoverCore.Failover.OnGossipRequest` | failover.rb:110-115 | at most one effect, a gossip response carrying the agent's id, emitted exactly when the master was seen recently; the agent's state is untouched |
| `FailoverCore.Failover.OnGossipResponse` | failover.rb:117-119 | probation is false afterwards, whatever the sender and the prior state; the last pong is unchanged |
| `FailoverCore.Failover.PromoteSlave` | failover.rb:158-177 | the key is written, the slave detached and `on_failover` called exactly when the key was absent; otherwise the store is unchanged and nothing is emitted |
| `FailoverCore.Failover.CheckHealth` | failover.rb:183-198 | recent: probation unchanged, only a reschedule, store untouched; stale and not on probation: probation set, one gossip request with the agent's id, reschedule; stale and on probation: the promotion of `PromoteSlave`, and no reschedule |
| `FailoverCore.Failover.OnSlaveConnectFailure` | failover.rb:34-36 | announces the configured master |
| `FailoverCore.Failover.OnSlaveInfo` | failover.rb:57-82 | announces `ConnectTarget`; a slave following the configured master has the coordination key deleted, and the store is untouched in the other two cases |
| `FailoverCore.Failover.OnPromoted` | failover.rb:95-99 | a promotion message closes the master and the subscriber connections and announces the slave |
| `FailoverCore.Failover.OnMessage` | failover.rb:93-105 | dispatches on the channel name: promoted, gossip request and gossip response behave as their handlers; any other channel does nothing |
| `FailoverCore.NewPair` | spec/failover_spec.rb:46-47 | two agents built in one process have different ids and share the store |
| `FailoverCore.RacePromotions` | spec/failover_spec.rb:46-64 | agents sharing one slave promote in turn: at most one `on_failover`, and exactly one when the key starts absent and there is an agent; the key then holds this turn's timestamp and otherwise keeps its value; the slave ends up detached exactly then, or if it already was |
| `RubyString.ToIShowNat` | failover.rb:68 | `to_i` of a decimal port followed by any non-digit text reads back the port |
| `RubyString.ToINegative` | failover.rb:68 | `to_i` of a minus sign followed by decimal digits is the negated number |
| `RedisStore.ExecIfAbsent` | failover.rb:161-168 | the transaction commits exactly when the watched key is absent; on commit the key holds the timestamp, otherwise it keeps its value; either way it is present afterwards |
| `RedisStore.Store.Delete` | failover.rb:71 | the key is absent afterwards; the node's role is unchanged |
| `RedisStore.Store.ExecPromotion` | failover.rb:164-168 | the key follows `ExecIfAbsent`, and the node is detached from its master exactly when the transaction committed or it already was |
| `FailoverTraces.Deliver` | failover.rb:183-198 | the first master connection starts the checks and arms one; a health check runs only while its timer is armed, and afterwards the timer stays armed exactly when the check did not promote; other callbacks change the state by `Step` and leave the timer alone |
| `FailoverTraces.NoCheckBeforeMasterConnects` | failover.rb:49-52 | from a freshly built agent, until the master connection comes up the checks have not started, none is armed and none runs |
| `FailoverTraces.MasterConnectArmsCheck` | failover.rb:49-52 | the first master connection arms a health check |
| `FailoverTraces.ProbationPersists` | failover.rb:117-119 | once on probation, the agent stays on probation until a gossip response arrives |
| `FailoverTraces.ProbationHasCause` | failover.rb:186-194 | an agent that started off probation and is now on probation had an earlier stale check that put it there, with no gossip response since |
| `FailoverTraces.PromotionNeedsEarlierStaleCheck` | failover.rb:186-190 | a promoting health check is preceded by a stale check that entered probation, with no gossip response in between |
| `FailoverTraces.ProbationNotReentered` | failover.rb:186-194 | two checks that both enter probation have a gossip response between them |
| `FailoverTraces.StaysDisarmed` | failover.rb:188-189 | once the checks have started and no check is armed, none is armed later |
| `FailoverTraces.NoCheckAfterPromotion` | failover.rb:188-189 | for a world where a check is armed only after the checks started (true of a freshly built agent), after a check that promotes no health check runs again |
| `FailoverTraces.ChecksContinueUntilPromotion` | failover.rb:197 | a check that does not promote re-arms the next check |
| `FailoverTraces.GossipResponseIdempotent` | failover.rb:117-119 | applying a gossip response twice equals applying it once |
| `FailoverTraces.FreshCheckKeepsProbation` | failover.rb:186-194 | from a freshly built agent: master connects, a pong, a stale check, a pong, a fresh check and then one stale check; the last check promotes, so the stale checks need not be consecutive |
| `PromotionRace.AtMostOneWinner` | failover.rb:158-177 | without a DEL, under any interleaving of the agents' checks and EXECs, at most one EXEC commits; a key that is already present stays as it was and no one wins; a key that starts absent is set exactly when someone won |
| `PromotionRace.KeyStays` | failover.rb:159-163 | with the key present and no DEL, the key and the winners never change |
| `PromotionRace.ExecutedAttemptYieldsOneWinner` | failover.rb:158-177 | starting from an absent key, once any agent that passed its check reaches EXEC, there is exactly one winner |
| `PromotionRace.TwoClientsOneFailover` | spec/failover_spec.rb:56-64 | two agents that both pass their checks and both execute give exactly one failover, for the first to execute |
| `PromotionRace.DeleteReopensPromotion` | failover.rb:70-71 | a DEL after a committed promotion lets a second agent commit: two winners |

## Left out

- EventMachine timers, the connection timeout (failover.rb:43-47, 55) and the ping loop's timing. Rescheduling is an effect (`SchedulePing`, `ScheduleHealthCheck`). In the trace model it is a flag that says whether a health check is armed.
- em-hiredis connections, the PING and INFO wire formats, and pub/sub delivery. Published messages are returned as effects, and the delivery of a message to the subscribers is an input of the handlers. A closed connection is an effect, and what it does to later callbacks is not modelled.
- Redis's WATCH/MULTI/EXEC semantics are assumed: EXEC is modelled as an atomic set-if-absent (`ExecIfAbsent`). A key set and deleted again between WATCH and EXEC would abort a real EXEC, but the model commits it.
- The store holds only the key `failover:promoted_at` and the slave's role, since these are the only things the agent reads or writes. The value written is a `Time` in seconds, not Ruby's `Time` object.
- `FailoverCore.Failover.PromoteSlave` takes the reply chain EXISTS, then WATCH/GET, then EXEC as one turn. `PromotionRace` covers the interleavings between the check and the EXEC, with the store's semantics.
- `client_id` (failover.rb:179-181) is an opaque tuple (host name, process id, counter). `Socket.gethostname` and `$$` are parameters, and the tuple is not rendered into its string form.
- `callback` (failover.rb:121-125) is modelled as emitting the event. It does nothing when no handler was registered, and that lookup is left out.
- Logging and `puts` output.
- The constructor's argument checks (failover.rb:16-18). All three test `:master`, and `ArgumentError(...)` is not a valid raise, so they check nothing that the model could state.
- The URL parsing of the `:master` and `:slave` options. The model takes each as a host and a port.
- The master connection's callback (failover.rb:49-52) is a one-time callback: in the trace model a second `MasterConnected` input changes nothing. A pong that comes after the master connection was closed is not ruled out.
- `RubyString.ToI` does not accept underscores between digits, and it does not skip the `0d`/`0D` prefix that base-10 `String#to_i` accepts (`"0d12".to_i` is 12, the model gives 0); a port in INFO contains neither.
- `spec/spec_helper.rb` (starting and killing redis-server processes, running the event loop) is not part of this model.
