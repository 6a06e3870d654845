# Socket Tuner: verified model

Socket Tuner lets learners tune TCP sockets on remote agents. A **router** keeps a pool of agent
pods, leases one agent per episode, follows the cluster's endpoints and scales the deployment; an
in-kernel **tracker** records what each process's connections do and applies tuning actions by
address; an **environment server** turns measured durations into rewards. This project models those
three parts in Dafny and proves properties of them.

`dafny verify dfyconfig.toml` checks everything.

## How the project is laid out

| file | content |
|---|---|
| `PoolSpec.dfy` | the pool as a value: operations, invariant, connection ledger, sweeps in any order |
| `Pool.dfy` | the pool as a class over mutable agent records, each method equal to its operation |
| `Server.dfy` | the Reset, Step and Close handlers |
| `Watcher.dfy` | one sync against the endpoints, and the list-then-watch loop |
| `RouterSystem.dfy` | the router as a transition system: handlers, sync, cleanup and clock interleaved |
| `RouterRuns.dfy` | theorems over every run of that system |
| `Sessions.dfy` | exclusive use of agents: exactly which steps keep it |
| `Clients.dfy` | rules for clients and for the router's timing, and that they are enough |
| `Witnesses.dfy` | for each of these rules a run that keeps all the others and loses an agent |
| `Scaler.dfy` | the autoscaler: torn reads, fixed point |
| `Tracker.dfy` | the in-kernel event program: non-interference, time |
| `Address.dfy` | the address from kernel to client and back |
| `Episode.dfy` | the environment server: retries, step budget, rewards, score, requests after the end of a session |
| `EnvClient.dfy` | the environment server as a client of the router |

A run starts from the empty pool and is any sequence of enabled steps. Every pool method is one step,
since it holds the pool's mutex throughout; a handler is several steps with its forwarded call
between two of them, and a sync is one step per address and one for the sweep. A lock is given a
grant number, so that "the same session" has a meaning the code itself does not record. A connection
number identifies an agent record, since a record owns one connection for life.

## What holds only under assumptions, and what does not hold

- Exclusive use of an agent does not follow from the code alone: Step and Close act on whatever is at
  the session's address. `Sessions.ExclusiveExactly` gives the exact condition, for every run: requests
  in flight have their agents to themselves in all its states if and only if each Step is sent under
  the grant that holds the agent, with no other request of it in flight, and no Close and no cleanup
  hits a session that has a request in flight. `Sessions.ExclusiveUse` says what that gives each request.
- `Sessions.OwnershipExactly` gives the exact condition for the stronger property that, besides, nobody
  ends a session but its own client, or a cleanup while it is idle: a Close that hits a session must also
  be sent under that session's grant.
- Both conditions follow (`Clients.ConsiderateSessionsOwned`) from four rules for each client, none of
  which needs to be told when the router takes a session back, and two for the router's timing. The
  client names only a session it was given and has not ended, waits for the reply to its last request,
  and has the next one arrive no later than the timeout after its last stamp. The router stamps it within
  that time as well, and its handlers are done with their agent within the timeout of stamping it. The
  agent limits a run to 30 s and waits 100 ms after it, against a default session timeout of 300 s.
- None of these six rules can be dropped (`Witnesses.EachRuleNeeded`): for each there is a run that keeps
  all the others at every step and in which sessions are not their clients' own. In
  `Witnesses.LateCloseSharesAgent` a second Close, as the environment server sends it
  (`Episode.ClosedTwice`), ends another client's session and two clients share an agent. In `Witnesses.OverlapEndsOther` a client
  closes its session while its own Step is in flight; in `Witnesses.LateRequestEndsOther` it closes it
  after the timeout; in `Witnesses.LongCallEndsOther` a forwarded call outlasts the timeout; in
  `Witnesses.CleanupBeforeStamp` the cleanup strikes between a Step's lookup and its stamp; in
  `Witnesses.StrangerEndsOther` somebody who was never given a session closes one.
- The environment server does not always keep the rule to leave a session alone once it has ended: it
  closes the session when an episode is done but goes on remembering it, so that a shutdown closes it
  again and a further step asks for it. `Episode.QuietExactly` gives the exact condition, over all
  sequences of calls: nothing follows its own Close if and only if, after each step answered with done
  and a session id, the caller only resets until a reset succeeds. `Episode.EndExactly` adds the ends the
  router makes: a reply that says done comes after the router has released the agent, so the Close that
  the environment then sends is late already. `EnvClient.EnvironmentKeepsRule` ties this to the rule as
  the router sees it, in any run, whatever else goes on there.
- The code's comment promises at least 0.50 for a reduction of 25%
  (server/socket_tuner_environment.py:212). In exact arithmetic the threshold is 24.75%, because of
  rounding, and the top reward 0.99 is earned above 49.25% (`Episode.RewardThresholds`).
- Deleting the service does not clear the pool, although the log message says so
  (env-router/internal/k8s/watcher.go:102-105); `Watcher.EndpointWatcher.WatchLoop` follows the code.
- When busy agents' pods are evicted, the scaler settles with more free agents than the warm target:
  one more for each evicted one (`Scaler.FixedPoint`).

## Model

| member | source | states |
|---|---|---|
| PoolSpec.WalkIsSweep | env-router/internal/pool/pool.go:138-148 | a loop that deletes from the map it walks ends, for every order of the walk, in the one-shot transformation of the visited entries |
| PoolSpec.SweepStep | env-router/internal/pool/pool.go:189-200 | visiting one more address changes that entry alone, closes at most its connection, and meets it as it was before the sweep |
| PoolSpec.SweepInv | env-router/internal/pool/pool.go:134-149 | both sweeps keep keys, pending-implies-busy, distinct connections and the connection ledger |
| PoolSpec.AddInv | env-router/internal/pool/pool.go:37-64 | adding keeps the pool invariant, the new connection being one never dialed before |
| PoolSpec.RemoveInv | env-router/internal/pool/pool.go:68-86 | removing or marking keeps the pool invariant; the connection closed is closed for the first time |
| PoolSpec.ReleaseInv | env-router/internal/pool/pool.go:104-120 | releasing keeps the pool invariant, with or without a deferred removal |
| PoolSpec.ConnectionsConserved | env-router/internal/pool/pool.go:50-61 | closed connections and the pool's own, all of them open, make up exactly the dialed ones; none is closed twice |
| PoolSpec.CloseAllClosesAll | env-router/internal/pool/pool.go:204-210 | the final Close closes every dialed connection that is still open, once, and no other |
| PoolSpec.CountsAgree | env-router/internal/pool/pool.go:163-181 | free plus busy is the total, and agents waiting for removal are busy, so total minus free counts the busy agents |
| PoolSpec.CleanupEffect | env-router/internal/pool/pool.go:134-149 | the cleanup frees exactly the busy agents idle for longer than the timeout and leaves every other entry as it is |
| PoolImpl.Pool.AddAgent | env-router/internal/pool/pool.go:37-64 | the pool becomes the one with the agent added, or un-marked if already there; fails just if the dial does |
| PoolImpl.Pool.RemoveAgent | env-router/internal/pool/pool.go:68-86 | an idle agent is closed and deleted, a busy one marked, an unknown one ignored |
| PoolImpl.Pool.LockFreeAgent | env-router/internal/pool/pool.go:89-101 | locks and stamps some agent that was neither busy nor pending, and fails only if there is none |
| PoolImpl.Pool.FreeAgent | env-router/internal/pool/pool.go:104-120 | the agent is no longer busy, and is closed and deleted if it was waiting for removal |
| PoolImpl.Pool.TouchAgent | env-router/internal/pool/pool.go:123-130 | stamps the entry at the address, if there is one, and nothing else |
| PoolImpl.Pool.CleanupStaleAgents | env-router/internal/pool/pool.go:134-149 | the deleting loop, in any order, equals the one-shot cleanup |
| PoolImpl.Pool.GetAgentBySession | env-router/internal/pool/pool.go:152-160 | the record at the address, busy or not, or failure if there is none |
| PoolImpl.Pool.FreeCount | env-router/internal/pool/pool.go:163-174 | counts the agents neither busy nor pending |
| PoolImpl.Pool.TotalCount | env-router/internal/pool/pool.go:177-181 | counts all entries |
| PoolImpl.Pool.RemoveAgentsNotIn | env-router/internal/pool/pool.go:185-201 | the deleting loop, in any order, equals the one-shot removal of the agents not live |
| PoolImpl.Pool.Close | env-router/internal/pool/pool.go:204-210 | afterwards every connection ever dialed has been closed exactly once; the entries stay |
| ServerImpl.Server.Reset | env-router/internal/grpcserver/server.go:24-48 | fails unchanged without a free agent, when no Reset is a step of the router either; a failed call frees the agent again; any reply, successful or not, leaves it busy and names it as the session; all this by steps possible in every state of the router with that pool, whatever its sync and its other handlers |
| ServerImpl.Server.Step | env-router/internal/grpcserver/server.go:50-76 | goes to the record now at the session's address, whoever holds it; stamps it, and frees it if the reply says done; turns away just what is no step of the router, and otherwise moves as its steps do |
| ServerImpl.Server.Close | env-router/internal/grpcserver/server.go:78-87 | rejects an empty session, otherwise releases whatever is at the address, as the router's step does |
| ServerImpl.ResetAsSteps | env-router/internal/grpcserver/server.go:28-45 | whenever an agent is neither busy nor pending, in any state of the sync and the other handlers, a Reset handler that nobody interrupts, with time passing before its stamp and during its call, is a sequence of steps with the same effect, and leaves sync and other handlers as they are |
| ServerImpl.StepAsSteps | env-router/internal/grpcserver/server.go:56-75 | whenever there is an agent at the address, a Step handler that nobody interrupts, under any issued grant or none, with time passing, is a sequence of steps with the same effect, and leaves sync and other handlers as they are |
| ServerImpl.HandlerFinishes | env-router/internal/grpcserver/server.go:24-76 | no handler waits for another or for the sync: in any state it can go through with the rest of its steps, whatever has become of the pool meanwhile and whatever its call comes to |
| ServerImpl.CloseAsStep | env-router/internal/grpcserver/server.go:78-87 | a Close is a step of the router in any state, whoever sends it |
| ServerImpl.CleanupAsStep | env-router/main.go:79-86 | a cleanup is a step of the router in any state |
| ServerImpl.CleanUp | env-router/main.go:84-86 | one tick of the ticker turns the pool into what that step makes of it |
| Watcher.SyncShape | env-router/internal/k8s/watcher.go:112-133 | a sync has one result up to connection identities: live agents wanted, others marked if busy and gone if idle; surviving records keep their connection |
| Watcher.SyncedExactly | env-router/internal/k8s/watcher.go:112-133 | what a sync comes to agent by agent: live ones wanted and as busy and active as before, others pending if busy and gone if idle, unknown live ones there, idle and fresh, just if the dial succeeds |
| Watcher.OrderIrrelevant | env-router/internal/k8s/watcher.go:122-127 | the order in which the live set is walked does not show in the result |
| Watcher.SyncIdempotent | env-router/internal/k8s/watcher.go:112-133 | a second sync on the same endpoints changes nothing, whatever the orders and the times |
| Watcher.SyncAsSteps | env-router/internal/k8s/watcher.go:122-133 | whenever no sync is in progress, the uninterrupted sync is a sequence of steps of the transition system with the same effect, whatever the handlers are at |
| Watcher.SyncFinishes | env-router/internal/k8s/watcher.go:122-133 | a sync in progress can always be finished, in any order and with any dials failing, whatever the handlers have done to the pool meanwhile |
| Watcher.SplitTarget | env-router/internal/k8s/watcher.go:117 | an address is the host, a colon and the port, and splits back into them at its last colon |
| Watcher.EndpointWatcher.LiveAddrs | env-router/internal/k8s/watcher.go:113-120 | the nested loops collect exactly the address and port of every entry of every subset: each one splits into a host of some subset and the configured port, and every host is among them |
| Watcher.EndpointWatcher.AddAgents | env-router/internal/k8s/watcher.go:122-127 | the add loop visits each live address once, in some order, and adds it |
| Watcher.EndpointWatcher.SyncEndpoints | env-router/internal/k8s/watcher.go:112-137 | brings the pool to the one-shot sync result and in step with the endpoints, and does so as the transition system does, by the steps of a sync in the order taken |
| Watcher.EndpointWatcher.WatchLoop | env-router/internal/k8s/watcher.go:70-109 | up to connection identities the pool ends as one sync per delivery, in order, makes it, in step with the last endpoints delivered; deletions and foreign objects change nothing; a failed list leaves it untouched |
| Watcher.OnlyDeliveriesCount | env-router/internal/k8s/watcher.go:94-106 | what the watcher makes of a sequence of events is what it makes of the deliveries among them |
| Watcher.LastDelivered | env-router/internal/k8s/watcher.go:94-106 | the endpoints the pool is in step with are those of the last addition or modification, whatever deletions and foreign objects came after |
| RouterSystem.Effects | env-router/internal/pool/pool.go:37-201 | which steps change the busy agents and which the wanted ones: only locks and releases the former, only the sync the latter; records never change identity in place |
| RouterSystem.Kept | env-router/internal/pool/pool.go:37-201 | every step of every actor keeps the invariant of the whole router |
| RouterRuns.Always | env-router/main.go:74-109 | the invariant of the router holds in every state of every run |
| RouterRuns.ConnectionsOverRuns | env-router/internal/pool/pool.go:50-61 | conservation of connections in every reachable state, and after the final Close |
| RouterRuns.EndedStaysEnded | env-router/internal/pool/pool.go:89-120 | a session once ended is never held again |
| RouterRuns.NoUseAfterClose | env-router/internal/pool/pool.go:41-48 | from lock to release the entry at the address is the locked record, busy, with its connection open, however often its pod vanishes and returns |
| RouterRuns.GrantsDisjoint | env-router/internal/pool/pool.go:89-101 | sessions held at the same time are on different agents and connections |
| RouterRuns.LevelTriggered | env-router/internal/k8s/watcher.go:112-133 | between syncs the entries not pending are exactly the live addresses of the last sync whose dial did not fail, all others busy and pending, despite anything interleaved with the sync |
| RouterRuns.CleanupClock | env-router/main.go:79-86 | in any run the recorded time of the last cleanup is the time of the last cleanup step |
| RouterRuns.HandlerClock | env-router/internal/grpcserver/server.go:34-61 | in any run a handler's recorded stamp is the time of its last stamp, or of its lock |
| RouterRuns.IdleBounded | env-router/main.go:79-86 | with regular cleanups no busy agent is idle for longer than the timeout plus one cleanup period |
| RouterRuns.BoundedRelease | env-router/internal/pool/pool.go:134-149 | a session not stamped since a time has been released by that time plus timeout plus cleanup period |
| RouterRuns.InFlightProtected | env-router/internal/grpcserver/server.go:34-42 | with forwarded calls no longer than the timeout, a cleanup leaves the agent of every call in flight as it is, however long handlers take otherwise |
| RouterRuns.HandlerProtected | env-router/internal/grpcserver/server.go:28-45 | with handlers done with their agent within the timeout of stamping it, the same from the lock or the stamp to the handler's last pool operation |
| RouterRuns.DrainShrinks | env-router/internal/pool/pool.go:104-120 | without new Resets and syncs, Steps going on, the busy set only shrinks, by at least one agent for each step that ends a session, and the target stands |
| RouterRuns.Drained | env-router/internal/pool/pool.go:104-149 | with nobody busy the pool is exactly what the last sync wanted, nothing pending |
| RouterRuns.DrainConverges | env-router/internal/pool/pool.go:104-149 | a router without new Resets and syncs reaches the pool the last sync wanted, with nobody busy, within timeout plus cleanup period of the last stamp |
| Sessions.ExclusiveExactly | env-router/internal/grpcserver/server.go:50-87 | in a run requests in flight are exclusive in all states if and only if each step keeps to the condition: Steps under the grant that holds the agent, one at a time; no Close and no cleanup on a session with a request in flight |
| Sessions.ExclusiveUse | env-router/internal/grpcserver/server.go:50-76 | in a run that meets the condition every request in flight works on the record granted to its sender, open and in the pool, and no two on the same one |
| Sessions.OwnershipExactly | env-router/internal/grpcserver/server.go:50-87 | the same, and every session is ended only by a request of its own or by a cleanup while idle, if and only if, besides, a Close that hits a session is sent under its grant |
| Sessions.PoliteSessionsOwned | env-router/internal/grpcserver/server.go:50-87 | so it is with clients that send every request under a grant they hold, one at a time, and cleanups that spare sessions in use |
| Clients.RulesAreMannerly | env-router/internal/grpcserver/server.go:50-86 | a request the rules let a client send is sent under a grant it holds, with no other request of it in flight |
| Clients.InformedKept | env-router/internal/pool/pool.go:89-149 | every step keeps the clients' knowledge sound: a grant they count as theirs is held or out of time |
| Clients.ConsiderateIsPolite | env-router/internal/pool/pool.go:123-149 | with clients keeping to the rules, requests in flight are exclusive and no cleanup strikes a session in use, in every reachable state |
| Clients.ConsiderateSessionsOwned | env-router/internal/pool/pool.go:123-149 | runs in which clients keep to the rules are polite, and all sessions are their clients' own |
| Witnesses.EachRuleNeeded | env-router/internal/grpcserver/server.go:50-87 | for each rule there is a run that keeps all the others at every step and in which sessions are not their clients' own |
| Witnesses.StrangerEndsOther | env-router/internal/grpcserver/server.go:78-86 | such a run in which somebody never given a session closes one in use |
| Witnesses.LateCloseSharesAgent | env-router/internal/grpcserver/server.go:78-86 | such a run in which a second Close makes two clients share an agent |
| Witnesses.OverlapEndsOther | env-router/internal/grpcserver/server.go:69-73 | such a run in which a Step finishing after its client's Close ends the next client's session |
| Witnesses.LateRequestEndsOther | env-router/internal/grpcserver/server.go:78-86 | such a run in which a Close sent after the timeout ends the next client's session |
| Witnesses.CleanupBeforeStamp | env-router/internal/grpcserver/server.go:56-61 | such a run in which a cleanup takes the agent between a Step's lookup and its stamp |
| Witnesses.LongCallEndsOther | env-router/internal/grpcserver/server.go:61-73 | such a run in which a Step outlasting the timeout ends the next client's session |
| Scaler.AutoScaler.Reconcile | env-router/internal/k8s/scaler.go:68-106 | writes the number of busy agents plus the warm ones, but at least 1, as a 32-bit integer, just if that differs from the current count |
| Scaler.AutoScaler.SetWarmPoolSize | env-router/internal/k8s/scaler.go:109-116 | takes sizes from 0 on and refuses others without effect |
| Scaler.ToInt32 | env-router/internal/k8s/scaler.go:98 | the narrowing conversion: the 32-bit signed integer congruent to its argument, the same if it fits |
| Scaler.TornSnapshot | env-router/internal/k8s/scaler.go:69-84 | with the pool changing between the two reads the target stays within 1 and total plus warm, and off the atomic target by at most the availability changes in between |
| Scaler.FixedPoint | env-router/internal/k8s/scaler.go:68-106 | once the requested pods are live nothing more is written, and the free agents are the warm ones plus one per evicted busy agent |
| Tracker.SockOps.UpdateMetrics | env-ebpf-agent/ebpf/socket_tuner.c:109-130 | an unknown cookie or process changes nothing; otherwise the process's record takes the event's figures, and its duration if it has a start |
| Tracker.SockOps.BpfSockmap | env-ebpf-agent/ebpf/socket_tuner.c:133-222 | how each event changes the maps, other address families and other events not at all; actively and passively established sockets get the action stored for their remote address, if any, and have their callbacks enabled |
| Tracker.NonInterference | env-ebpf-agent/ebpf/socket_tuner.c:109-159 | the metrics of a process are those its own events alone would leave, whatever others interleave |
| Tracker.SameAfter | env-ebpf-agent/ebpf/socket_tuner.c:109-159 | an event that concerns a process has the same effect on its metrics whatever the other processes' records are; any other event leaves them alone |
| Tracker.OwnedReplay | env-ebpf-agent/ebpf/socket_tuner.c:109-116 | telling events apart by socket owner or by last connect makes no difference to the replay |
| Tracker.NonInterferenceByOwner | env-ebpf-agent/ebpf/socket_tuner.c:109-159 | the same with events told apart by the socket's owner, when cookies are not shared between processes |
| Tracker.TrackedHaveMetrics | env-ebpf-agent/ebpf/socket_tuner.c:142-159 | a process that a cookie stands for has metrics, so an update with a known cookie is never lost |
| Tracker.CookieOfLastConnect | env-ebpf-agent/ebpf/socket_tuner.c:145-149 | a cookie stands for the process that last connected with it in the trace, and for none if and only if there was no such connect |
| Tracker.RecordShows | env-ebpf-agent/ebpf/socket_tuner.c:109-159 | by the trace alone: after a process's last connect, on a cookie of its own, and the last update on its sockets, on that cookie, its record has that update's counters and the time from the connect to the update as its duration |
| Tracker.RecordStarts | env-ebpf-agent/ebpf/socket_tuner.c:151-158 | by the trace alone: until the first update on its sockets after its last connect, all counters of a process are 0 |
| Tracker.LatestObservation | env-ebpf-agent/ebpf/socket_tuner.c:122-125 | the counters of a process are those of the last update that concerns it |
| Tracker.StartsInThePast | env-ebpf-agent/ebpf/socket_tuner.c:127-129 | with a monotone clock every start is past and every duration fits since then |
| Tracker.DurationExact | env-ebpf-agent/ebpf/socket_tuner.c:127-129 | an update that concerns a process finds its record; the subtraction does not wrap, and the duration is the elapsed time in whole microseconds if the start is not 0, else as before |
| Tracker.DurationGrows | env-ebpf-agent/ebpf/socket_tuner.c:127-159 | between two connects of a process its duration never decreases |
| Tracker.ConnectRemembered | env-ebpf-agent/ebpf/socket_tuner.c:146-158 | until its next connect a process keeps the remote end and start of its last one |
| Tracker.PortShown | env-ebpf-agent/ebpf/socket_tuner.c:154-156 | the recorded port has the four bytes of the wire field in reverse, so that a port in network order in its upper half comes out as its value |
| Address.ParsesExactly | env-ebpf-agent/internal/ebpfmgr/manager.go:54-66 | reading dotted decimal accepts exactly what printing yields, and gives back what was printed |
| Address.DecimalExactly | env-ebpf-agent/internal/ebpfmgr/manager.go:99-102 | the decimal text of a number is made of digits, has its value and no leading zero |
| Address.BytesRoundTrip | env-ebpf-agent/internal/ebpfmgr/manager.go:62-101 | little-endian encoding and decoding are inverse in both directions |
| Address.KeyOfReported | env-ebpf-agent/internal/ebpfmgr/manager.go:54-104 | a text without a colon names the key of an address if and only if it is the text reported for it |
| Address.KeyOfDotted | env-ebpf-agent/internal/ebpfmgr/manager.go:54-66 | the key of a dotted text is the sum of its four numbers weighted 1, 256, 65536 and 16777216, with port 0 |
| Address.KeyOfColons | env-ebpf-agent/internal/ebpfmgr/manager.go:54-66 | a text with a colon is left to the library, and its four bytes, if it yields four, count in the same way |
| Address.Manager.SetAction | env-ebpf-agent/internal/ebpfmgr/manager.go:69-76 | stores the action under the key of the address with port 0, or fails without effect |
| Address.Manager.GetMetricForPid | env-ebpf-agent/internal/ebpfmgr/manager.go:94-105 | the record of the process with its address as text, if there is one |
| Address.ActionReachesReported | env-ebpf-agent/ebpf/socket_tuner.c:141-163 | an action stored for the address reported for a process is what the program gives to established sockets to the address the process connected to, and to no others |
| Address.AgentStep | env-ebpf-agent/internal/grpcserver/server.go:68-118 | an address without a key is an error without effect; otherwise the action is stored, each event of the command is answered with the stored action for its remote end, and the process's metrics come back, as its own events alone would leave them |
| Address.TuneReported | env-ebpf-agent/internal/grpcserver/server.go:45-118 | sending the reported address back with an action succeeds, and the program gives it to exactly the sockets established to the address the process had connected to |
| Episode.SocketTunerEnvironment.Reset | server/socket_tuner_environment.py:100-171 | one to three calls, a further one only after a retryable outcome; task by count modulo 3 whatever happens; success starts the count at 0 with the reply's session, baseline and target, failure leaves them; nothing is sent for the old session; the loop's else branch is never reached |
| Episode.RetriesExactly | server/socket_tuner_environment.py:133-149 | what is retried: an error on the way, and a refusal whose message has busy or no free agent anywhere in it |
| Episode.SocketTunerEnvironment.Step | server/socket_tuner_environment.py:173-252 | counts the call even if it raises; done if and only if the reply says so, or the run took at most half the baseline, which earns 0.99, or the budget is used up; reward as specified; sends a Close after the Step when done but keeps the session |
| Episode.SocketTunerEnvironment.Close | server/socket_tuner_environment.py:258-267 | closes a session still remembered and forgets it |
| Episode.StepBudget | server/socket_tuner_environment.py:173-223 | as long as no reset succeeds, every step call uses up budget and at most the rest of it is answered with done = false |
| Episode.EpisodeBudget | server/socket_tuner_environment.py:173-223 | between two successful resets at most MAX_STEPS - 1 steps are answered with done = false |
| Episode.DoneExactly | server/socket_tuner_environment.py:173-223 | after any history and a successful reset a step is answered done if and only if its reply says so, or it took at most half as long as the run that reset observed, or it is the MAX_STEPS-th step call since, or a later one |
| Episode.SinceReset | server/socket_tuner_environment.py:119-126 | between successful resets the count is that of the step calls, raised ones included, baseline and target are those of the last reset's reply, and so is the session until it is closed |
| Episode.TaskRotation | server/socket_tuner_environment.py:105-108 | the count that picks the task counts every reset, failed or not |
| Episode.QuietExactly | server/socket_tuner_environment.py:173-267 | over all sequences of calls, no request for a session follows a Close of it if and only if after each step answered with done and a session id only resets are called until one succeeds |
| Episode.EndExactly | server/socket_tuner_environment.py:173-267 | none follows its end, by a Close or by the router on a reply that says done, if and only if, besides, no step is answered with done because the reply says so |
| Episode.ClosedAgain | server/socket_tuner_environment.py:225-267 | a shutdown right after a step that is answered done, whatever came before, sends a second Close for the session |
| Episode.ClosedTwice | server/socket_tuner_environment.py:225-267 | an episode of any number of steps that is done and then shut down closes its session exactly twice |
| EnvClient.RuleIsQuiet | env-router/internal/grpcserver/server.go:50-87 | in any run the requests under some grants keep that rule if and only if the trace of what happens to these grants shows no request after an end |
| EnvClient.EnvironmentKeepsRule | server/socket_tuner_environment.py:173-267 | in a run of the router the environment keeps the rule to ask nothing of a session that has ended if that condition holds, and only if so when all its requests arrive |
| Episode.RewardInRange | server/socket_tuner_environment.py:204-217 | every reward is between 0.01 and 0.99 |
| Episode.RewardExactly | server/socket_tuner_environment.py:204-217 | the reward in whole numbers: twice the fraction of the baseline saved, to the nearest cent, ties to even, between 0.01 and 0.99, and 0.01 without both measurements |
| Episode.RewardFalls | server/socket_tuner_environment.py:208-217 | a longer run never earns more |
| Episode.RewardThresholds | server/socket_tuner_environment.py:208-221 | at least 0.50 is earned from a reduction of 24.75% on, 0.99 above 49.25%, and not below |
| Episode.ScoreIsMean | inference.py:274-276 | over at most five steps the score's upper clamp never binds |
| Episode.SumOfParts | inference.py:275 | the sum of an episode's rewards is the sum of the sums of its parts |

## Left out

- Everything generated or from libraries: gRPC, protobuf, the Kubernetes client and its watch plumbing. A dial or forwarded call is a parameter or a free choice of outcome.
- RouterSystem.Kept: the transition system has no step for `Pool.RemoveAgent`, which nothing calls, and none for the final `Pool.Close`, after which no step follows.
- Watcher.EndpointWatcher.AddAgents: takes one time for all additions, where the code reads the clock for each new agent; in RouterRuns the clock runs on between them.
- PoolImpl.Pool.CleanupStaleAgents: reads the clock once per call, where the code reads it once per busy agent; the mutex is held throughout.
- RouterRuns.Always: requests that are rejected (no free agent, unknown or empty session) change nothing and are not steps.
- ServerImpl.Server.Reset: the observation in the reply and the request's command are passed through by the code and not modelled; likewise the action fields of Step.
- Scaler.AutoScaler.Reconcile: a failing update of the deployment has no effect on the router and is not distinguished from a successful one.
- Watcher.EndpointWatcher.WatchLoop: cancellation and the pause of five seconds before the next list are not modelled.
- Tracker.SockOps.BpfSockmap: which socket options an action sets, one branch per option, and the kernel's reaction to them. Map updates are assumed to succeed, so maps are never at capacity.
- Address.AgentStep: the command is not modelled; the socket events it causes and the process id it had are parameters.
- Address.KeyOfReported: texts with a colon, such as IPv4-mapped IPv6 ones, are read by the library; their reading is an arbitrary parameter.
- The manager's lookup of metrics by address, whose key type does not fit the map, and attaching and detaching the program.
- The executor: its list of allowed commands and process handling. Only its time limit enters, as a bound on calls.
- Episode.RewardThresholds: rewards are exact rationals rounded half to even; the rounding errors of floating-point numbers are not modelled.
- Episode.SocketTunerEnvironment.Step: a missing session is the empty text, which the router treats alike. Observation fields other than the duration are copied by the code and not modelled.
- EnvClient.EnvironmentKeepsRule: does not cover a reply saying done that the router sends but the environment never gets.
- Episode.ScoreIsMean: the final rounding of the score to three digits.
- The client wrappers, the web interface, prompting, logging, scripts and manifests.
