# Rabble, verified

Rabble connects actors over a fully connected mesh of nodes. This project models the parts of it that
decide whether the mesh works, and proves what they promise:

* **The cluster server** (`cluster_*.dfy`, `members.dfy`, `errors.dfy`): connections, established peers,
  the timer wheel and the membership set of one server, updated in step by every handler. `ClusterState`
  says what each handler does as a function on values; the class `ClusterServers.ClusterServer` is the
  server as it is written, with its loops and its early returns, proved equal to those functions.
  `server_loop.dfy` ties its poll loop to the cluster.
* **The cluster** (`network*.dfy`, `flooding.dfy`, `sums.dfy`): any number of such servers, two-ended
  FIFO links, frames in flight, inboxes that are handled message by message. Theorems are about every
  state that any run from a fresh cluster reaches; `network_examples.dfy` and
  `neighbours_example.dfy` build the runs in which the cluster does not do what one would hope for.
  `neighbours.dfy` says what two neighbours know of each other's membership, `envelopes.dfy` follows envelopes
  from sending to the executor of their node, and `keep_alive.dfy` pings. `node_runs.dfy` finds the run of one
  server in a run of the cluster.
* **The timer wheel** (`timer_wheel.dfy`, `timers.dfy`): the ring of slots refines a set of (key,
  deadline) pairs, for any size.
* **The TCP service** (`tcp_*.dfy`, `subsequences.dfy`): connections whose handlers share one output
  buffer, request timeouts, idle timeouts with lazy cleanup.
* **The executor** (`executor*.dfy`) with its re-entrant routing, and **chain replication** on top of it
  (`chain*.dfy`). `delivery.dfy` joins it to the cluster.
* **The text of pids** (`splitting.dfy`, `pid_text.dfy`).

In each part a class has the fields and methods of the program and is proved against functions on plain
values; the theorems are lemmas about these functions and about whole runs of them.

## What is assumed

* Socket ids are fresh and never reused. New ids are inputs of the events that open sockets.
* Writing a frame to a connection either queues the whole frame or fails and queues nothing; links are
  FIFO; reading a socket yields a prefix of what the far end has queued and this end has not read.
* Node ids are unique and totally ordered; no node connects to itself.
* The membership set is the lattice of sets of marks: joining is union, and a delta is news exactly when
  it is not contained in what is known. Addition marks carry a dot of the adding node, removal marks the
  dots seen.
* Sends on the in-process channels to the executor, to the node and to services succeed.
* Hash sets are gone through in an order that the model does not fix: loops pick any element, or take the
  order as an input.
* The executor's timer wheel is a set of (pid, correlation id) keys: starting a timer enters its key,
  cancelling it removes the key, and nothing else changes. A tick takes out the keys that it hands out;
  which ones these are is an arbitrary input.
* What processes and connection handlers do is an arbitrary function of their state and the message.

## What the proofs found

Frames that would break a server, and that no run of the cluster has, since no node sends Members twice on one
connection (`NetworkTheorems.HandshakeDiscipline`):

* Handling a Members frame keeps the server invariant exactly when the connection, unless it is closed as a
  duplicate, is not already established under another name (`ClusterState.EstablishKeepsExactly`).
* A second Members frame on an established connection, under the same name, would close that connection: the
  rule compares it with itself (`ClusterFacts.GreetingEstablishes`).

What can happen in runs. For each there is a lemma with the input and one that says exactly when:

* Two nodes that have two connections between them choose the same one to close exactly when these were
  opened from different sides, or both nodes established the same one first
  (`NetworkTheorems.SidesAgreeExactly`). In runs: they close one each, in some run, exactly when both
  connections were opened from the same side (`NetworkExamples.CrossClosingExactly`). The run is that of a
  node that has joined another twice (`NetworkExamples.CrossClosingHappens`).
* An error while a delta is sent on loses the messages that were read behind it
  (`NetworkExamples.InboxLostExactly`), although the connection they came from is healthy
  (`NetworkExamples.HealthyInboxLost`). The theorems about the cluster hold with this loss.
* What a node learns from a Members frame it absorbs without passing it on; it passes on exactly the deltas that
  are news (`ClusterFacts.PassedOnExactly`). So neighbours that have handled everything from each other know the
  same exactly when each knows what the other has learned from Members frames after greeting it
  (`Neighbours.NeighboursAgreeExactly`). When two nodes join a third at the same time they may never hear of each
  other, while it counts both as members (`NeighboursExample.NeighboursDisagree`).
* A tick with a failed ping skips the connection check, and so leaves the connections suited to the
  membership only if they suited it already (`ClusterFacts.TickSuitsExactly`); a member can stay
  unconnected that would have answered (`ClusterFacts.FailedPingSkipsCheck`).
* A failed write while expired requests are gone through drops the timeouts of the rest: a request fires
  exactly when no write failed before its turn and its connection is live (`TcpRequests.FiresExactly`). One
  that is dropped, though its connection is live (`TcpExamples.LiveRequestDropped`), never fires later
  (`TcpRequests.PassedNeverFires`).
* A correlation id without a connection makes the TCP service panic, at once in an arriving envelope, and at
  the eleventh request tick in one that a handler has sent (`TcpExamples.UnnamedRequestKills`);
  `TcpPanics.StepPanicsExactly` says when, and `TcpPanics.NamedRunsNeverPanic` that there is no other way.
* An envelope to a pid named `cluster_server` without a group makes the executor panic, and so does a
  metrics request to the executor from such a pid (`ExecutorPanics.UngroupedPanics`). Together with messages
  that a process panics on these are the only ways (`ExecutorPanics.TurnPanicsExactly`,
  `ExecutorPanics.RunPanicsExactly`); processes that never panic and send neither keep the executor up
  (`ExecutorPanics.RunNeverPanics`, `ExecutorPanics.QueuePanicsExactly`).
* A replica panics on any message without a correlation id (`ChainPanics.UnansweredKills`), and a run with
  replicas panics exactly when such a message reaches one, or something harmful reaches the executor
  (`ChainPanics.ChainPanicsExactly`).
* The comment on the TCP handler speaks of connections that have not received a message; the code restarts the
  idle time at every readable event without an error, complete message or not (`TcpIdle.StepCounts` says when).
  Bytes that never make a message keep a connection open (`TcpExamples.TrickleKeepsOpen`).
* Different pids can have the same text: `a:` on node `n@h` prints like `a` on node `:n@h`
  (`PidText.ColonsPrintAlike`). `PidText.PidRoundTrip` says exactly which pids survive the round trip.

The comment on the executor's routing says that envelopes must be for local processes; the code passes others to
the cluster server (`ExecutorFacts.RoutePlaces`), and so does the model.

## Model

| member | source | states |
|---|---|---|
| TimerWheels.TimerWheel.constructor | src/timer_wheel.rs:22-33 | a new wheel of any size of at least 1 has only empty slots and its write slot one behind its read slot |
| TimerWheels.TimerWheel.Insert | src/timer_wheel.rs:37-41 | the key is entered in the write slot, whose number is returned, and nothing else changes |
| TimerWheels.TimerWheel.Remove | src/timer_wheel.rs:43-46 | the key leaves the named slot only; its entries in other slots and all other keys stay |
| TimerWheels.TimerWheel.Expire | src/timer_wheel.rs:48-53 | the push and swap_remove return the read slot's keys, leave that slot empty and every other slot in place, and both pointers advance around the ring |
| TimerWheels.TimerWheel.UpdatePointers | src/timer_wheel.rs:55-58 | both pointers advance by one modulo the size and stay one apart |
| TimerWheels.TurnedAges | src/timer_wheel.rs:48-58 | an expiration makes every slot one older, except the read slot, which is the oldest and becomes the newest |
| Timers.WheelRefinesTimers | src/timer_wheel.rs:37-58 | for any size and any sequence of operations the wheel returns what the same operations on a set of (key, deadline) pairs return, and stays in correspondence with it |
| Timers.NewWheelIsEmpty | src/timer_wheel.rs:22-33 | a new wheel corresponds to no timers |
| Timers.PendingSlotsDiffer | src/timer_wheel.rs:37-58 | deadlines that are pending together never share a slot |
| Timers.InsertedKeyFiresOnce | src/timer_wheel.rs:37-58 | a key inserted and then left alone is returned by the expiration number `size` after that and by no other |
| Timers.RemovedKeyNeverFires | src/timer_wheel.rs:43-53 | a key removed from the slot it sits in is never returned unless it is inserted again |
| Timers.FiresInTime | src/timer_wheel.rs:37-58 | whichever expiration of any run of the wheel returns a key, it comes between `size - 1` and `size` periods after the insertion |
| Timers.ServiceTimeoutAccuracy | src/service/tcp_server_handler.rs:206-214 | on a wheel of 11 slots turned every T/10 the expiration that returns a key comes more than T-10 ms and at most 1.1 T after its insertion, and not before T when 10 divides T |
| Timers.ClusterTimeoutAccuracy | src/cluster/server.rs:26-27 | on a wheel of 5 slots turned every 1000 ms the expiration that returns a key comes 4000 to 5000 ms after its insertion |
| Ids.NodeOrderTotal | src/node_id.rs:4-8 | of two different node ids exactly one sorts lower |
| Membership.AddMakesMember | src/members.rs:57-59 | after an addition the members are the old ones and the added node, whatever was removed before |
| Membership.LeaveRemovesMember | src/members.rs:42-47 | after a leave the members are the old ones without the named node |
| Membership.SameDeltasSameMembers | src/members.rs:49-51 | nodes that have absorbed the same deltas have the same members, whatever the order and the repetitions |
| Membership.AddDeltaCarries | src/members.rs:57-59 | the delta of an addition makes the node a member wherever it is absorbed, unless that very addition was removed there |
| Membership.MemberTable.constructor | src/members.rs:24-31 | a node starts as the only member of its own cluster |
| Membership.MemberTable.Add | src/members.rs:57-59 | the returned delta is a fresh addition mark of this node, and the table has absorbed it |
| Membership.MemberTable.Join | src/members.rs:37-39 | another node's whole state is absorbed and nothing is forgotten |
| Membership.MemberTable.Leave | src/members.rs:42-47 | None when no addition of the node was ever seen, else the delta that removes all additions seen, which the table has absorbed |
| Membership.MemberTable.JoinDelta | src/members.rs:49-51 | true exactly when the delta told this node something new |
| Errors.GetIdsComplete | src/errors.rs:62-76 | for error trees of any depth, the collected ids are exactly those that some error within the tree names |
| ClusterState.StepKeeps | src/cluster/server.rs:137-166 | every event keeps the server invariant: each live connection in exactly the wheel slot it records and nothing else in the wheel, and every established entry a live connection of that node that has sent its Members |
| ClusterState.EstablishKeepsExactly | src/cluster/server.rs:323-343 | handling a Members frame keeps the invariant if and only if the connection, unless it is closed as a duplicate, is not established under another name |
| ClusterState.EstablishedInjective | src/cluster/server.rs:323-343 | no two nodes are established on the same connection |
| ClusterFacts.CleanupForgetsNamed | src/cluster/server.rs:113-133 | after the cleanup of an error nested to any depth, every socket named in it is gone from connections, established entries and wheel, every other connection is untouched, and the invariant holds |
| ClusterFacts.CheckConnectionsFits | src/cluster/server.rs:533-562 | afterwards a non-member has no connections, and a member is established with members only and knows a connection to every other member unless the connect to it failed |
| ClusterFacts.CheckConnectionsSettles | src/cluster/server.rs:533-588 | a second check changes nothing when every connect of the first succeeded |
| ClusterFacts.TickSuitsExactly | src/cluster/server.rs:443-450 | a tick reports an error if and only if a ping fails; it leaves the connections suited to the membership if and only if no ping fails or they suited it already |
| ClusterFacts.FailedPingSkipsCheck | src/cluster/server.rs:443-450 | a new server that, after two joins and a greeting, stays without a connection to a member that would have answered, because a ping to another one fails |
| ClusterFacts.PassedOnExactly | src/cluster/server.rs:259-291 | of what a server hears, it passes on to a connection exactly a delta that is news, if the connection has sent its Members and can be written to; deltas and Members are absorbed |
| ClusterFacts.JoinTells | src/cluster/server.rs:381-386 | a joined node is a member at once, the same connections are told, and a connection to it is opened only when all of them could be told |
| ClusterFacts.LeaveTells | src/cluster/server.rs:388-393 | a node that leaves is no member any more, and the same connections are told if it was ever seen |
| ClusterFacts.GreetingEstablishes | src/cluster/server.rs:323-343 | Members that arrive are absorbed and the invariant is kept; afterwards exactly one of this connection and the one established before is left, named, established and timed anew if it is this one, and no other connection is touched; a second greeting on the established connection closes it |
| ClusterFacts.GreetingSuits | src/cluster/server.rs:261-265 | after Members have been handled the connections suit the membership that they brought |
| ClusterSends.TickPings | src/cluster/server.rs:443-450 | each tick pings exactly the connections that have sent their Members and do not expire in it, and reports exactly those of them that cannot be written to |
| ClusterSends.EnvelopeSentExactly | src/cluster/server.rs:190-200 | an envelope that is not for the server itself is queued on the connection established with its node, or that connection is reported; no other is touched |
| ClusterSends.PassesUpExactly | src/cluster/server.rs:270-281 | the executor gets exactly the envelopes that peers have sent, unchanged, and the answers to metrics requests, with the asker as address and its correlation id |
| ClusterSends.WritesExactly | src/cluster/server.rs:432-530 | every event writes to each connection exactly what it owes it: Members on one that is accepted or first ready, news, pings, and envelopes for its node; it reports exactly those on which that fails, and a broken socket |
| ClusterSteps.StepEvolves | src/cluster/server.rs:259-343 | what any event can do to a connection: it keeps its direction, is named only by a Members frame, moves its slot only when reset; new established entries come from Members frames only; the first frame queued on a connection is Members and later ones are not |
| ClusterTimeouts.TickClosesExactlyIdle | src/cluster/server.rs:443-450 | a tick's expiry closes exactly the connections whose idle counter is one short of the number of slots |
| ClusterTimeouts.StepCounts | src/cluster/server.rs:314-319 | at every event the wheel counts idle ticks as a naive counter per connection does, which only Ping and Members frames on that connection restart |
| ClusterTimeouts.RunCountsExactly | src/cluster/server.rs:443-450 | over any run in which nothing resets a connection, its counter grows by the number of ticks |
| ClusterTimeouts.SilentConnectionIsClosed | src/cluster/server.rs:443-473 | a connection that nothing resets is gone once as many ticks as there are slots have passed |
| ClusterTimeouts.ResetConnectionIsKept | src/cluster/server.rs:314-319 | a connection reset fewer than one turn of the wheel ago is not among those that the next tick times out |
| ClusterTimeouts.RegularNeverExpires | src/cluster/server.rs:314-319 | in every run that resets a connection within every window of as many ticks as there are slots, no tick times it out |
| KeepAlive.FedNeverExpires | src/cluster/server.rs:443-450 | from any point of any run of the cluster on, a node that handles, in every window of as many of its ticks as there are slots, some ping that its peer wrote at a tick never times the connection out |
| ClusterTimeouts.ClientsBoundedByJoins | src/cluster/server.rs:381-407 | when each address reaches the node it names, a server never has more client connections to a node than one plus the number of joins of that node |
| ClusterServers.ClusterServer.constructor | src/cluster/server.rs:77-106 | a new server has no connections, is the only member, and satisfies the invariant |
| ClusterServers.ClusterServer.Close | src/cluster/server.rs:476-494 | exactly this id disappears from connections, wheel and established entries; an entry of the same node for another connection survives |
| ClusterServers.ClusterServer.Deregister | src/cluster/server.rs:468-473 | exactly the expired ids disappear, in whatever order they are closed |
| ClusterServers.ClusterServer.DisconnectAll | src/cluster/server.rs:564-574 | no connection, timer or established entry is left, membership is unchanged |
| ClusterServers.ClusterServer.DisconnectPeer | src/cluster/server.rs:577-587 | the peer's established connection disappears everywhere, and the lookup of it never fails |
| ClusterServers.ClusterServer.DisconnectEstablished | src/cluster/server.rs:576-588 | exactly the established connections of the given nodes disappear, in any order |
| ClusterServers.ClusterServer.InitConnection | src/cluster/server.rs:420-430 | the fresh connection is live, knows its wheel slot, and is a client exactly if it has a peer |
| ClusterServers.ClusterServer.Connect | src/cluster/server.rs:395-407 | a connection to the peer is opened, or nothing changes and a connect error is returned |
| ClusterServers.ClusterServer.ConnectPeer | src/cluster/server.rs:554-559 | one wanted peer is connected to or skipped |
| ClusterServers.ClusterServer.ConnectPeers | src/cluster/server.rs:554-559 | every wanted peer that answers gets a connection; failures stop nothing |
| ClusterServers.ClusterServer.CheckConnections | src/cluster/server.rs:533-562 | the server is as the connection check prescribes, whatever the order of the sets |
| ClusterServers.ClusterServer.ConnWrite | src/cluster/server.rs:612-625 | the frame is queued behind the earlier ones of this connection, or nothing is and a write error names the connection |
| ClusterServers.ClusterServer.Broadcast | src/cluster/server.rs:514-530 | the frame is queued once on every connection that has sent its Members and whose write works; the error names exactly the others of these |
| ClusterServers.ClusterServer.SendMembers | src/cluster/server.rs:432-441 | Members are queued and the connection is marked, or neither; a missing connection changes nothing |
| ClusterServers.ClusterServer.ResetTimer | src/cluster/server.rs:314-319 | a live connection moves to the newest slot and its record follows; an unknown id changes nothing |
| ClusterServers.ClusterServer.ChooseConnectionToClose | src/cluster/server.rs:349-362 | nothing is chosen if the sender has no established connection yet; between two connections opened from different sides, the one that the lower node opened is chosen |
| ClusterServers.ClusterServer.Register | src/cluster/server.rs:336-342 | the connection gets its name, a new timer and the established entry together |
| ClusterServers.ClusterServer.EstablishConnection | src/cluster/server.rs:323-343 | the membership is absorbed and of two connections one is closed before the other is registered; when the new one is closed it is not registered |
| ClusterServers.ClusterServer.HandleMembers | src/cluster/server.rs:261-265 | establishing is followed by the connection check, and the invariant holds |
| ClusterServers.ClusterServer.HandleDelta | src/cluster/server.rs:282-287 | the delta is absorbed, and sent on exactly when it was news |
| ClusterServers.ClusterServer.HandleDecodedMessage | src/cluster/server.rs:259-291 | each kind of message has its meaning as an event, errors included |
| ClusterServers.ClusterServer.Read | src/cluster/server.rs:244-257 | the first readiness sends Members and reads nothing; later the messages are handled in order up to the first error |
| ClusterServers.ClusterServer.HandleMessages | src/cluster/server.rs:250-253 | the messages of one read are handled in order, and an error drops the rest |
| ClusterServers.ClusterServer.Write | src/cluster/server.rs:293-312 | flushing changes nothing here and reports the connection when it fails |
| ClusterServers.ClusterServer.AcceptOne | src/cluster/server.rs:413-415 | an accepted socket becomes a connection that is greeted at once |
| ClusterServers.ClusterServer.AcceptConnections | src/cluster/server.rs:409-418 | sockets are accepted in order up to the first that cannot be greeted |
| ClusterServers.ClusterServer.ExpireTimers | src/cluster/server.rs:445-446 | the connections of the expired slot are closed and all others are one tick older |
| ClusterServers.ClusterServer.TickTimers | src/cluster/server.rs:443-450 | timers expire, then pings are sent, then connections are checked unless a ping failed |
| ClusterServers.ClusterServer.Notify | src/cluster/server.rs:223-232 | a failed read skips the write of the same notification |
| ClusterServers.ClusterServer.NotifyNext | src/cluster/server.rs:205-216 | one notification adds its error, if any, to the others |
| ClusterServers.ClusterServer.HandlePollNotifications | src/cluster/server.rs:202-221 | all notifications are handled, and the error names exactly the sockets that any of them failed on |
| ClusterServers.ClusterServer.JoinCluster | src/cluster/server.rs:381-386 | the addition is broadcast before the connect, and a failed broadcast prevents it |
| ClusterServers.ClusterServer.LeaveCluster | src/cluster/server.rs:388-393 | the removal is broadcast if the node was ever seen |
| ClusterServers.ClusterServer.HandleEnvelope | src/cluster/server.rs:151-159 | an envelope goes to the established connection of its node, or nowhere |
| ClusterServers.ClusterServer.CleanUp | src/cluster/server.rs:115-118 | after an error the server is as if exactly the named connections had been closed |
| ClusterServers.ClusterServer.HandleClusterMsg | src/cluster/server.rs:137-166 | each message to the server has its meaning as events |
| ClusterServers.ClusterServer.RunOnce | src/cluster/server.rs:113-133 | one turn of the main loop: the message, then the cleanup of everything its error names, and the invariant holds again |
| ServerLoop.ReadRefines | src/cluster/server.rs:244-257 | what the server does when a greeted socket is readable is what its node does in the cluster: reading the frames and handling them one by one, all of them unless one meets an error |
| ServerLoop.AcceptsAll | src/cluster/server.rs:409-418 | all sockets are accepted in order, unless one cannot be greeted, and then those up to it |
| ServerLoop.BatchHandlesAll | src/cluster/server.rs:202-221 | every notification of a batch is handled, whatever became of those before, and all errors are reported |
| ServerLoop.SocketsAndTicks | src/cluster/server.rs:223-257 | the first readiness greets, a broken socket is reported, a failed read skips the write, and the timer ticks |
| ServerLoop.RequestsTakeEffect | src/cluster/server.rs:137-166 | a message to join makes a member, one to leave removes it, and an envelope is queued on the connection of its node |
| NetworkInvariant.ActionKeeps | src/cluster/server.rs:259-441 | every action of any node keeps the invariant of the whole cluster: links, handshakes, established entries, inboxes and the log of the past |
| NetworkInvariant.RunKeeps | src/cluster/server.rs:259-441 | so does every run |
| NodeRuns.RunProjects | src/cluster/server.rs:108-133 | what one node does in a run of the cluster is a run of its server, so every theorem about runs of a server holds of it |
| NetworkTheorems.EstablishedLeadsToPeer | src/cluster/server.rs:323-343 | in every run, the connection established for a node leads to that node, has been greeted on, and that node's Members have been handled |
| NetworkTheorems.EnvelopesArriveAtHome | src/cluster/server.rs:190-200 | in every run, an envelope that arrives from the network is at the node it is addressed to |
| Envelopes.SentIsDelivered | src/cluster/server.rs:190-281 | in every run, an envelope sent while its node is established is delivered at that node once everything sent on that connection has been handled |
| Envelopes.PassedOnInOrder | src/cluster/server.rs:270-281 | in every run, what a node has passed on to its executor is the sequence of the envelopes delivered there, in order, and its own answers to metrics requests between them |
| Delivery.DeliveredIsNotForwarded | src/executor/executor.rs:128-187 | in every run, an envelope that arrives from the network is placed by the executor on its own node, and goes back to the cluster server only if it is addressed to that |
| NetworkTheorems.HandshakeDiscipline | src/cluster/server.rs:244-257 | in every run, what a side has queued on a connection is nothing, or its Members once and first; nothing is handled on a connection before the Members of its far end, and these come once |
| NetworkTheorems.DuplicatesResolvedAlike | src/cluster/server.rs:349-362 | in every run, of two connections opened from different sides only the one that the lower node opened is closed as a duplicate, so the two sides never close one each |
| NetworkTheorems.NodesAgreeOnConnection | src/cluster/server.rs:323-343 | in every run, a live connection that both ends have heard the other on is the one both have established, and there is no second one |
| NetworkTheorems.SidesAgreeExactly | src/cluster/server.rs:349-362 | two servers that have established one of two connections between them each, and are greeted on the other, choose the same one to close if and only if these were opened from different sides or they established the same one first |
| NetworkExamples.CrossClosingHappens | src/cluster/server.rs:323-362 | a run from a fresh cluster in which two nodes close one of their two connections each, not the same one |
| NetworkExamples.CrossClosingExactly | src/cluster/server.rs:323-362 | such runs exist if and only if the two connections are opened from the same side |
| NetworkExamples.InboxLostExactly | src/cluster/server.rs:244-287 | the messages read behind the one that is handled are lost if and only if there are any, that one is a delta that is news, and it cannot be written to some connection |
| NetworkExamples.HealthyInboxLost | src/cluster/server.rs:250-287 | a run from a fresh cluster in which they came from a connection that has no error and stays open |
| Flooding.ActionLowers | src/cluster/server.rs:282-287 | without joins and leaves no action raises the pair (marks not yet absorbed, deltas in flight), and every handled delta lowers it |
| Flooding.FloodingEnds | src/cluster/server.rs:282-287 | every endless run without joins and leaves, from any state, has a point after which no delta is handled |
| Flooding.FloodingComesToRest | src/cluster/server.rs:496-503 | the same for the marks that exist at the start, whatever they are |
| Flooding.RefloodedOnce | src/cluster/server.rs:282-287 | in every run, joins and leaves included, a node sends a given delta on at most once |
| Neighbours.NeighbourLacks | src/cluster/server.rs:261-287 | in every run, of what a node knows, a neighbour that has handled everything from it, on a connection without write errors, lacks exactly what the node has learned from Members frames after greeting it, as far as the neighbour has not learned that itself |
| Neighbours.NeighboursAgreeExactly | src/cluster/server.rs:261-287 | in every run, two neighbours that have handled everything from each other know the same if and only if each knows what the other has learned from Members frames after greeting it |
| NeighboursExample.NeighboursDisagree | src/cluster/server.rs:323-343 | a run from a fresh cluster at whose end all frames are handled, nobody wants another connection, and two nodes established with each other have different members |
| ExecutorState.RouteAccounts | src/executor/executor.rs:128-139 | however deep metrics replies re-enter routing, the routed envelope and everything made on the way each went to exactly one place, the channels got exactly what was put there in order, and the shared buffer is empty again |
| ExecutorState.RouteToProcessAccounts | src/executor/executor.rs:144-178 | the same for a routing attempt that finds its process |
| ExecutorState.DrainAccounts | src/executor/executor.rs:162-177 | the same for the output of a process while it is drained |
| ExecutorState.HandleAccounts | src/executor/executor.rs:189-217 | the same for an envelope to the executor, with the metrics reply it may cause |
| ExecutorFacts.RoutePlaces | src/executor/executor.rs:128-187 | the routed envelope goes where its address says; one for this node goes to the cluster server only if addressed to it |
| ExecutorFacts.DrainKeepsOrder | src/executor/executor.rs:162-175 | output without metrics requests reaches each channel in the order of emission |
| ExecutorFacts.ProcessOutputInOrder | src/executor/executor.rs:152-178 | a local envelope changes its process only, and the output goes out in order |
| ExecutorFacts.RouteDepth | src/executor/executor.rs:196-217 | the allowance for nested metrics requests makes no difference once it suffices |
| ExecutorRegistry.TurnReaches | src/executor/executor.rs:63-119 | a received envelope goes where its address says, all first envelopes of a process that starts go where theirs say, every process whose timer expires is sent a Timeout with its correlation id, and a service that asks for the status is answered |
| ExecutorRegistry.MetricsAnswered | src/executor/executor.rs:207-217 | whoever asks the executor for metrics gets them at its address and with its correlation id |
| ExecutorRegistry.RegisteredIsReached | src/executor/executor.rs:72-74 | a service that is registered is where its pid leads, and all other addresses lead where they led |
| ExecutorRegistry.RegisteredIsServed | src/executor/executor.rs:181-187 | an envelope for a registered service is served to it |
| ExecutorRegistry.RunRegistry | src/executor/executor.rs:63-112 | in every run, exactly the services that were registered are known, and exactly the processes whose last start or stop was a start |
| ExecutorPanics.RoutePanicsExactly | src/executor/executor.rs:128-217 | routing panics if and only if the envelope is for an ungrouped `cluster_server` pid or for a process that panics on it, or is a metrics request to the executor whose reply is, however deep the routing nests |
| ExecutorPanics.TurnPanicsExactly | src/executor/executor.rs:63-119 | the same for every message to the executor: it panics if and only if the next envelope, an envelope of a process that starts, or the Timeout of an expired timer is of that kind |
| ExecutorPanics.RunPanicsExactly | src/executor/executor.rs:63-119 | a run panics if and only if one of its turns meets something of that kind |
| ExecutorPanics.RunNeverPanics | src/executor/executor.rs:63-82 | with processes that never panic and make nothing harmful, no run with harmless inputs panics, and everything queued stays harmless; ungrouped senders of ordinary messages are harmless |
| ExecutorPanics.QueuePanicsExactly | src/executor/executor.rs:63-82 | with polite processes, handling what is queued ends in a panic if and only if something harmful is queued |
| ExecutorPanics.UngroupedPanics | src/executor/executor.rs:147-217 | the two inputs that bring any executor down |
| ExecutorRuns.RunConserves | src/executor/executor.rs:63-82 | in every run each envelope that arrived or was made has reached exactly one final place or is still queued, nothing else went anywhere, and the buffer is empty between turns |
| ExecutorRuns.TurnConserves | src/executor/executor.rs:63-119 | every kind of message to the executor keeps that |
| ExecutorTimers.TurnFollows | src/executor/executor.rs:189-205 | in every turn of the executor a timer follows the requests that reach the executor, in their order, after the fired ones were taken out |
| ExecutorTimers.RunFollows | src/executor/executor.rs:189-205 | over every run in which it does not fire, a timer is pending exactly if the last request about it started it, or if there was none and it was pending before |
| Executors.Executor.constructor | src/executor/executor.rs:35-58 | a new executor has no processes, services, timers or envelopes |
| Executors.Executor.Route | src/executor/executor.rs:128-139 | routing ends in the state that its meaning prescribes, or panics when that does; the envelope and everything made on the way went to exactly one place each, and the buffer is empty again |
| Executors.Executor.RouteToProcess | src/executor/executor.rs:144-178 | the borrowed buffer does not show: the state is the one that its meaning prescribes, every envelope is accounted for, and an unknown pid changes nothing |
| Executors.Executor.Drain | src/executor/executor.rs:163-175 | the drain loop sends the output on one by one, re-entering routing where an envelope asks for metrics; each envelope of the buffer is accounted for and the buffer is empty afterwards |
| Executors.Executor.RouteToService | src/executor/executor.rs:181-187 | the service gets the envelope, or it is dropped |
| Executors.Executor.HandleExecutorEnvelope | src/executor/executor.rs:189-205 | timers are started and cancelled per pid and correlation id, metrics are answered at once, anything else is ignored |
| Executors.Executor.SendMetrics | src/executor/executor.rs:207-217 | the reply is routed like any envelope |
| Executors.Executor.Start | src/executor/executor.rs:98-108 | the process is registered before its first envelopes are routed |
| Executors.Executor.Stop | src/executor/executor.rs:110-112 | no process handles an envelope for that pid any more, and where all others go does not change |
| Executors.Executor.GetStatus | src/executor/executor.rs:84-96 | the status goes to the asking service or nowhere, never to a process |
| Executors.Executor.Tick | src/executor/executor.rs:114-119 | the owner of each expired timer gets its Timeout, and owners that are gone are passed over |
| Executors.Executor.RunOnce | src/executor/executor.rs:63-82 | one turn of the run loop has its meaning, and conservation of all envelopes that ever arrived is kept |
| Chains.ReplicaProcess.constructor | tests/utils/replica.rs:21-27 | a new replica has an empty history |
| Chains.ReplicaProcess.Handle | tests/utils/replica.rs:31-63 | the history grows in place by the operation and the output by the envelope that the replica's meaning prescribes; a missing correlation id panics and changes nothing |
| Chains.RunKeepsChain | tests/utils/replica.rs:31-63 | in every run, with other processes, timers and metrics requests around it, each replica's history is that of the next one followed by the operations queued for the next one, in order |
| Chains.TurnKeeps | src/executor/executor.rs:141-178 | every message to the executor keeps that |
| Chains.RouteKeeps | src/executor/executor.rs:128-178 | so does routing, re-entrant metrics replies included |
| Chains.FreshChainKept | tests/utils/replica.rs:21-27 | it holds when a chain starts |
| Chains.DownstreamIsPrefix | tests/utils/replica.rs:31-63 | every replica's history is a prefix of that of every replica before it |
| Chains.QuietMeansEqual | tests/utils/replica.rs:31-63 | all histories are equal once no operation is queued |
| Chains.CompletionIsReplicated | tests/utils/replica.rs:40-56 | when the last replica answers in a turn, every replica has the operation, at the same place of its history |
| Chains.OnlyLastCompletes | tests/utils/replica.rs:40-56 | a replica answers exactly if it is the last of its chain and takes an operation with a correlation id |
| ChainCompletions.RunTallies | tests/utils/replica.rs:40-56 | over every run, the answers of the last replica and its history grow by the same number |
| ChainCompletions.AnsweredIsReplicated | tests/utils/replica.rs:31-63 | in every run of a fresh chain, the last replica has answered once for each operation in its history, and every replica has each of these, at the same place |
| ChainReports.ReplicaTakes | tests/utils/replica.rs:31-63 | a replica sends each operation on to the next one with its correlation id, or answers the pid of that id when it is the last, and answers a request for its history with its history; it sends nothing else and no other history changes |
| ChainReports.RunReports | tests/utils/replica.rs:57-61 | in every run, a request for the history of a replica makes exactly one envelope, to the pid of its correlation id, with that history, which extends the history of every replica further down |
| ChainReports.ReportsAgree | tests/utils/replica.rs:57-61 | of two reports in one state the downstream one is a prefix of the other |
| ChainPanics.ChainPanicsExactly | tests/utils/replica.rs:31-38 | a run with replicas panics if and only if a message, a metrics reply or a Timeout without a correlation id reaches a replica, or something harmful reaches the executor |
| ChainPanics.UnansweredKills | tests/utils/replica.rs:37 | a replica that is asked for its history without a correlation id brings its executor down |
| TcpHandlers.TcpServerHandler.constructor | src/service/tcp_server_handler.rs:82-106 | a new service has no connections and empty wheels, the idle wheel only if there is an idle timeout |
| TcpHandlers.TcpServerHandler.HandleConnectionMsgs | src/service/tcp_server_handler.rs:310-336 | the whole buffer is drained, part of it unsent after a failed write, and request timers are started for envelopes that have a correlation id |
| TcpHandlers.TcpServerHandler.Finish | src/service/tcp_server_handler.rs:283-288 | a handler's output passes through the shared buffer to its own connection |
| TcpHandlers.TcpServerHandler.NewConnection | src/service/tcp_server_handler.rs:127-136 | the connection is live and records the idle slot it was entered in |
| TcpHandlers.TcpServerHandler.AcceptConnections | src/service/tcp_server_handler.rs:108-122 | the sockets before the first error become connections |
| TcpHandlers.TcpServerHandler.HandleReadable | src/service/tcp_server_handler.rs:276-293 | messages are handled in order up to the first failed read or write |
| TcpHandlers.TcpServerHandler.UpdateConnectionTimeout | src/service/tcp_server_handler.rs:296-305 | the connection moves to the newest idle slot and records it |
| TcpHandlers.TcpServerHandler.HandleConnectionNotification | src/service/tcp_server_handler.rs:138-158 | any failure closes this connection and no other, and only a successful read restarts its idle time |
| TcpHandlers.TcpServerHandler.IdleTick | src/service/tcp_server_handler.rs:160-167 | the live connections of the expired slot are closed; entries without a connection close nothing |
| TcpHandlers.TcpServerHandler.RequestTick | src/service/tcp_server_handler.rs:170-189 | the handlers of live connections get their timeouts up to the first failed write; nothing fires but expired requests, each at most once |
| TcpHandlers.TcpServerHandler.HandleEnvelope | src/service/tcp_server_handler.rs:251-271 | an envelope without correlation id is an error, one for a connection that is gone is ignored |
| TcpHandlers.TcpServerHandler.HandleNotification | src/service/tcp_server_handler.rs:219-248 | every notification keeps that sockets get only what their own handler made, that the idle wheel fits the connections, and that no request times out more often than it was recorded |
| TcpIsolation.RunIsolates | src/service/tcp_server_handler.rs:251-293 | in every run the buffer is empty between calls, also after failed writes, and each socket got only messages of its own connection's handler, in the order in which that made them |
| TcpIsolation.StepIsolates | src/service/tcp_server_handler.rs:138-189 | every event keeps that |
| TcpIsolation.NewIsIsolated | src/service/tcp_server_handler.rs:82-106 | it holds of a new service |
| TcpIsolation.RunWritesAll | src/service/tcp_server_handler.rs:310-336 | in a run without failures every message made for a client is written |
| TcpIsolation.SocketLeavesOthers | src/service/tcp_server_handler.rs:138-158 | activity on one socket, failures included, leaves every other connection, its handler and its socket alone |
| TcpIsolation.EnvelopeGoesHome | src/service/tcp_server_handler.rs:251-271 | an envelope is handled by the connection that its correlation id names and leaves all others alone; if that is gone nothing happens |
| TcpReading.ReadGivesAll | src/service/tcp_server_handler.rs:276-293 | a read gives the handler every message, in order, up to and including the first whose output cannot be written; the read succeeds if and only if there is none and the socket is fine |
| TcpReading.ReadableGivesAll | src/service/tcp_server_handler.rs:138-158 | a ready socket: the handler ends in the state that all these messages lead to, all its client output was made and its envelopes went to the node in order; the connection is closed if and only if something failed |
| TcpReading.StepFailsExactly | src/service/tcp_server_handler.rs:219-293 | exactly when accepting, a ready socket or an envelope fails |
| TcpReading.AcceptsCreate | src/service/tcp_server_handler.rs:108-136 | every accepted socket gets a handler made for it, and all others keep theirs |
| TcpReading.TickGivesTimeouts | src/service/tcp_server_handler.rs:170-189 | a request tick gives the handler of each live connection the Timeouts of its own requests, in order, all of them unless a write fails |
| TcpRequests.TimeoutsBounded | src/service/tcp_server_handler.rs:170-189 | in every run a request times out at most as often as it was recorded |
| TcpRequests.StepBacked | src/service/tcp_server_handler.rs:170-189 | every event keeps that each timeout given and each one still waiting stand for a recording of their own |
| TcpRequests.DeliverForwards | src/service/tcp_server_handler.rs:319-326 | a handler's envelopes go to the node in order, all of them unless a write to its client fails, and exactly those with a correlation id get a request timer |
| TcpRequests.RecordedSits | src/service/tcp_server_handler.rs:319-325 | a request recorded during any event, a request tick included, waits in the newest slot and does not fire in that event |
| TcpRequests.RunWaits | src/service/tcp_server_handler.rs:170-189 | until ten request ticks have passed it just waits |
| TcpRequests.FiresAtEleventhTick | src/service/tcp_server_handler.rs:170-189 | at the eleventh request tick the request is among the expired ones, and it fires, once, if and only if no write failed for those before it and its connection is live |
| TcpRequests.FiresExactly | src/service/tcp_server_handler.rs:170-189 | of any expired requests, each fires exactly once or not at all, and fires if and only if no write failed before its turn and its connection is live |
| TcpRequests.SendFailsExactly | src/service/tcp_server_handler.rs:310-336 | a send fails if and only if the output holds more client messages than get through |
| TcpExamples.LiveRequestDropped | src/service/tcp_server_handler.rs:170-189 | a run of a new service at whose end a live connection has a request that was recorded and never fires, because the write for another connection fails first |
| TcpRequests.TickFiresOnce | src/service/tcp_server_handler.rs:170-189 | a request tick fires nothing but expired requests, each at most once |
| TcpRequests.PassedNeverFires | src/service/tcp_server_handler.rs:170-189 | a request whose tick has passed, fired or dropped, never fires later |
| TcpPanics.StepPanicsExactly | src/service/tcp_server_handler.rs:170-189 | an event panics if and only if an envelope arrives whose correlation id names no connection, or an expired request names none and no write fails before its turn |
| TcpPanics.NamedRunsNeverPanic | src/service/tcp_server_handler.rs:170-271 | no run panics when handlers and arriving envelopes always name a connection |
| TcpExamples.UnnamedRequestKills | src/service/tcp_server_handler.rs:170-189 | a run of ten quiet request ticks whose eleventh panics, because a handler once sent an envelope whose correlation id names no connection |
| TcpIdle.StepCounts | src/service/tcp_server_handler.rs:127-167 | at every event the wheel, leftovers included, closes connections as a plain counter per connection would: closed by the tick that finds it at 10, restarted by an accept or a successful read |
| TcpIdle.RunCounts | src/service/tcp_server_handler.rs:296-305 | so does every run, and every live connection is in the wheel exactly once, at the slot it records |
| TcpIdle.NewFits | src/service/tcp_server_handler.rs:82-106 | a new service has nothing in its wheel that does not belong to a live connection |
| TcpIdle.QuietConnection | src/service/tcp_server_handler.rs:160-167 | a connection on whose socket nothing happens is open if and only if its counter and the ticks since add up to at most 10 |
| TcpIdle.LeftoversVanish | src/service/tcp_server_handler.rs:239-245 | what an error close leaves in the wheel is gone after 11 ticks, and the connection never comes back |
| TcpExamples.TrickleKeepsOpen | src/service/tcp_server_handler.rs:138-158 | a connection on which bytes but no complete message arrive once in ten idle ticks stays open as long as that goes on; without the bytes it is closed at the eleventh |
| Splitting.JoinSplit | src/pid.rs:37 | joining the parts of a split gives the text back |
| Splitting.SplitJoin | src/pid.rs:37 | splitting at the leftmost separators gives the joined parts back if and only if each separator is found right behind its part |
| PidText.ParsedPidPrints | src/pid.rs:24-54 | whatever parses as a pid prints back to the same text |
| PidText.ParsedNodePrints | src/node_id.rs:10-29 | whatever parses as a node id prints back to the same text |
| PidText.NodeParsesIff | src/node_id.rs:20-24 | a text parses as a node id if and only if it has exactly one `@` |
| PidText.NodeRoundTrip | src/node_id.rs:10-29 | printing and parsing a node id gives it back if and only if neither part has an `@` |
| PidText.PidRoundTrip | src/pid.rs:24-54 | printing and parsing a pid gives it back if and only if no part contains `::`, group and name do not end in `:`, and the node's parts have no `@` |
| PidText.PrintableInjective | src/pid.rs:24-31 | such pids are equal when their texts are |
| PidText.ColonsPrintAlike | src/pid.rs:24-54 | two different pids with the same text, one of which reads back as the other |

## Left out

* Sockets, the poller, registration and framing: they appear as success or failure of reads, writes and
  connects, and as FIFO queues of whole frames. Re-registering a socket for writing is not modelled.
* Serialization (`src/serialize/*`, msgpack): messages are carried as they are. Encoding never fails.
* Logging, metric counters, histograms and the contents of status and metrics reports.
* The GetStatus request of the cluster server, the executor tick that it forwards, and its reply channel.
* `src/node.rs`, `src/lib.rs`, `src/service/service.rs`: channel sends and thread start-up only.
* The timer wheel of the ferris crate and the set of the orset crate are not part of this model, beyond
  what is assumed above; when an executor timer expires is an input.
* Starting the listeners and interval timers, and the address of the listener.
* Message order across nodes during reconnects: the chain is proved on one executor's queue.
- ClusterServers.ClusterServer.Connect: a failure to register the new socket is treated like a failed connect, although it has its own error and stops the server when it comes from a join.
- ClusterServers.ClusterServer.RunOnce: the server also stops on encoding, decoding, registration and send errors at the top level of a call; here only the shutdown stops it, and cleanup is the same.
- ClusterServers.ClusterServer.ConnWrite: a failure to re-register the socket after the frame was queued is not modelled.
- ClusterServers.ClusterServer.Notify: the notification of the executor's own timer is not modelled.
- ClusterServers.ClusterServer.HandlePollNotifications: the same; the executor's ticks that it forwards are left out.
- ClusterServers.ClusterServer.HandleClusterMsg: the status request is left out.
- ClusterServers.ClusterServer.EstablishConnection: a second Members frame under another name on an established connection is excluded, exactly the case in which the invariant breaks (`ClusterState.EstablishKeepsExactly`); no run of the cluster has one.
- ClusterServers.ClusterServer.HandleMembers: the same frame is excluded.
- ClusterServers.ClusterServer.HandleDecodedMessage: the same frame is excluded.
- ClusterServers.ClusterServer.Read: reads with the same frame are excluded.
- ClusterServers.ClusterServer.HandleMessages: batches with the same frame are excluded.
- ClusterServers.ClusterServer.Write: re-registering for reads, and its failure, are not modelled.
- ClusterServers.ClusterServer.AcceptConnections: a failure to register an accepted socket is not modelled.
- Executors.Executor.Route: takes an allowance for nested metrics requests, since two processes could answer each other's metrics for ever; `ExecutorFacts.RouteDepth` shows that a sufficient allowance makes no difference.
- Executors.Executor.RouteToProcess: takes the same allowance.
- ExecutorPanics.RoutePanicsExactly: what a process panics on does not depend on its state, and no process makes a metrics request whose reply is fatal.
- ExecutorPanics.TurnPanicsExactly: the same.
- ExecutorPanics.RunPanicsExactly: the same.
- ExecutorPanics.RunNeverPanics: processes that can panic are left out; `ExecutorPanics.RunPanicsExactly` says when these bring a run down.
- ChainPanics.ChainPanicsExactly: the other processes neither panic nor make metrics requests whose reply is fatal.
- ExecutorPanics.QueuePanicsExactly: speaks of executors that no nested metrics requests exhaust.
- Executors.Executor.RunOnce: the control messages (start, stop, register, tick) come between envelopes at any time instead of through the same queue.
- Chains.RunKeepsChain: operations enter at the head only and the chain's replicas stay registered.
- ClusterState.StepKeeps: a connection that is established under one name is not greeted under another, exactly what `ClusterState.EstablishKeepsExactly` needs; the cluster invariant provides that.
