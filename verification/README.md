# A verified model of the node software

A node is a ring of ESP32 boards connected by SPI: four forwarders and a center, which is a home or the root. Nodes form a
tree over Wi-Fi. This project models the parts of the software that have to agree across boards and nodes, and proves what
they promise over every run.

| files | what they hold |
|---|---|
| `NodeSystem.dfy`, `Roles.dfy`, `Sync.dfy`, `Fifo.dfy` | The node as a state machine: first-in first-out inboxes, the token leader, the queues and tables of all boards, and the event handlers of the three roles. |
| `TokenRing.dfy`, `WakeUp.dfy`, `ReplicatedLog.dfy`, `Provisioning.dfy`, `RootProvisioning.dfy`, `Progress.dfy`, `Termination.dfy` | What holds in every reachable state of the node, one layer on the other: mutual exclusion and rounds, no lost wake-up, one log of table operations, one provisioner and agreement at rest, no event stranded, and rest in the end. |
| `SyncDevice.dfy`, `SharedState.dfy`, `Forwarder.dfy`, `Center.dfy`, `RoutingDevice.dfy`, `RingDevice.dfy`, `BufferPool.dfy` | The modules as they are written, as classes whose methods change their fields, each proved against the functions that the state machines use; and that the node's steps are what these methods do. |
| `RoutingTable.dfy`, `Associations.dfy` | The sorted array with first-match lookup, and the bounded map with longest-prefix match that it stands for (section 5.2.4.3 of RFC 1812). |
| `Networks.dfy`, `AddressTree.dfy`, `Bits.dfy` | 32-bit masks and shifts, three-bit subnetting, and the addresses of a whole tree. |
| `Flooding.dfy`, `DtrFlooding.dfy`, `GatewayFlooding.dfy`, `MixedFlooding.dfy`, `ResponseFlooding.dfy`, `ReplyTopologies.dfy` | Distance updates and gateway requests over any topology end; winners and responses end exactly where the links between nodes close no cycle. |
| `RingBroadcast.dfy`, `RingAcks.dfy`, `RingLink.dfy`, `RingPositions.dfy` | A broadcast hop by hop, and exactly when its acknowledgement is mistaken for another's. |
| `HopByHop.dfy` | The token and the log once more, with copies that reach one board after the other while other boards act. |
| `Forwarding.dfy`, `HomeTable.dfy`, `RootTable.dfy` | Where a packet leaves the node, and the tables of a provisioned home and of a root at rest. |

`dafny verify dfyconfig.toml` checks everything.

How the node machine is built: a step is work local to one board followed by at most one broadcast, and a handler's actions
(edit the table and refresh, broadcast, send to the peer) are separate steps that interleave with the steps of all other
boards. Board `b` has orientation `b + 1`; a node has 2 to 7 boards, the most that three-bit orientations allow, and the
source has 5. Tokens of all seven components circulate; only the routing component registers a critical section. Fields
marked "history" record the past and are read by no step.

Where the code and its documentation disagree, the code is modelled:

- `os_panic` logs and returns, so a panic drops the event and goes on. The provisioning theorems are about runs in which no
  event was dropped; the token, wake-up and log theorems hold with panics too.
- The loop over the networks of a gateway request tests the first slot on every round, so it adds all sixteen slots or none,
  and a zero slot among them moves the default gateway.
- A distance that ties is refused, so an old local root keeps its flag; no uniqueness of local roots is claimed.
- `get_node_subnet` computes with the signed constant 1. Up to parents of 27 bits the values are those of a compiler that
  shifts signed numbers in two's complement; for longer parents an intermediate result overflows or a shift count reaches
  32. The value given there is arbitrary and no theorem uses it.
- The increment of a distance wraps at 2^32 - 1: `DtrFlooding.WrapsExactlyAtTheMaximum` says exactly when, and the bound
  of `DtrFlooding.DistancesOnlyFall` is the largest that avoids it. Floods of updates end all the same.
- An unprovisioned peer announces (0,0), which moves the default gateway of a provisioned node to the board that it
  connects to (`HomeTables.UnprovisionedPeerTakesTheGateway`).
- The forwarders of a root are served before its center in the first round, so a handshake dispatched there, even with a
  peer that has no network and provides (0,0), provisions them before the root does, whose announcement they then ignore
  (`RootProvisioning.RootPrevailsExactlyIfFirst`, and a run in `RootProvisioning.EarlyHandshakeRuns`).
- Winners and responses go round for ever where the links between nodes close a cycle, from some states of the boards
  (`ReplyTopologies.RepliesEndExactlyWithoutCycles`, and two such states in `ResponseFlooding.dfy`).
- A retry after a timeout can have its acknowledgement mistaken: `RingAcks.AcksGoWrongExactlyIfOverlapping` says when.

## Model

| member | source | states |
|---|---|---|
| TokenRing.TokenIsUnique | components/routing/sync/src/leader.c:14-60 | Over every run from the start, for every component: grants on their way to the board they name, plus boards inside the routing section, is 1 while the leader has the token out and 0 otherwise; pending requests imply a token is out; at most one board is inside. |
| TokenRing.RoundsAccountForRequests | components/routing/sync/src/leader.c:27-65 | Over every run, for every component: each finished round visited all boards in ring order, the current round is a prefix of that order, and rounds issued plus requests pending equals requests handled minus requests dropped by the saturated counter. |
| TokenRing.StepKeepsToken | components/routing/sync/src/follower.c:9-29 | Every kind of step of every board keeps, for every component, the accounts of grants, rounds and requests. |
| TokenRing.StepKeepsInside | components/routing/sync/src/follower.c:14-19 | Every step keeps that a board is inside exactly while it holds the routing token, and that only a board inside has actions to come. |
| TokenRing.PassOnIsOk | components/routing/sync/src/follower.c:21-23 | Passing the token on, or ending the round at the leader, leaves at most the one grant that the next device acts on, and keeps the accounts. |
| TokenRing.IssueIsOk | components/routing/sync/src/leader.c:14-25 | Issuing a token when none exists puts exactly one live grant on its way, to the first device. |
| WakeUp.NoWakeUpIsLost | components/routing/sync/src/leader.c:27-60 | Over every run: a board holding an event whose request has been made is inside, or the current token has not reached it, or a request is on its way to the leader or pending there. It holds although the counter drops requests at 255. |
| WakeUp.RequestAwaitsAll | components/routing/sync/src/follower.c:26-29 | A request, saturated or not, leaves every board awaited by a round that is still to come or a request on its way. |
| SyncDevices.DecodeInvertsEncode | components/routing/sync/src/sync.c:12-33 | Decoding the bytes of a sync message gives the message back, through the shared union of grant and request. |
| SyncDevices.SyncDevice.constructor | components/routing/sync/src/sync.c:35-49 | A new device has no token out, nothing requested, nothing registered; it leads just when it is the center. |
| SyncDevices.SyncDevice.RegisterCriticalSection | components/routing/sync/src/sync.c:51-57 | Only the registration of the component changes. |
| SyncDevices.SyncDevice.IssueNewToken | components/routing/sync/src/leader.c:14-25 | The token of the component, and no other, is marked out and one grant to the first device is broadcast. |
| SyncDevices.SyncDevice.RequestCriticalSection | components/routing/sync/src/leader.c:27-39 | The new slots and the messages sent are those of the specification that the node machine uses, for leader and follower. |
| SyncDevices.SyncDevice.RunCriticalSection | components/routing/sync/src/leader.c:46-52 | A registered callback runs once, with the inside flag set only meanwhile; an unregistered one does not run. |
| SyncDevices.SyncDevice.OnTokenGrant | components/routing/sync/src/follower.c:9-24 | A grant for another device changes nothing; the device's own runs the critical section first and then ends the round or passes the token on. |
| SyncDevices.SyncDevice.OnSiblingMessage | components/routing/sync/src/sync.c:12-33 | Messages of a wrong length or unknown kind change nothing; the others have the specified reaction, and a follower ignores requests. |
| SyncDevices.RequestIsDeviceRequest | components/routing/sync/src/sync.c:59-61 | A board's request in the node machine leaves the same slots and sends the same messages as the device's method. |
| SyncDevices.PassOnIsDeviceGrant | components/routing/sync/src/leader.c:41-60 | The node machine's passing on of a token leaves the same slots and sends the same messages as the device's handler. |
| Progress.NoEventIsStranded | components/routing/sync/src/leader.c:54-59 | Over every run: in a state in which no board can take a step by itself, all inboxes and event queues are empty and no component has its token out or a request pending, with the saturating counter too. Inboxes are unbounded and broadcasts do not wait. |
| Termination.NodeComesToRest | components/routing/routing/src/routing.c:37-109 | From every reachable state, a run of the boards' own steps in any order is no longer than the measure of that state, and where it cannot go on the node is at rest: every event has been dispatched, or dropped by a full queue. |
| Termination.InternalStepCosts | components/routing/sync/src/leader.c:41-60 | Every such step lowers what messages, queued events, actions to come, requests owed and pending, and the rest of each token's round are worth together. |
| Termination.SiblingScriptWeighs | components/routing/routing/src/forwarder/sibling.c:8-115 | Sibling handlers tell the siblings nothing, but for the root's start; their actions are worth less than the event. |
| Progress.StuckIsAtRest | components/routing/routing/src/routing.c:106-108 | The same of any state that keeps the accounts of tokens, wake-ups and queues. |
| ReplicatedLog.OneLog | components/routing/shared_state/src/shared_state.c:51-76 | Over every run there is one log of table operations: each board's table is the fold of a prefix of it, a board inside its critical section has folded all of it, and once no copy is undelivered every table is the whole fold. |
| ReplicatedLog.TablesOnlyAdvance | components/routing/shared_state/src/shared_state.c:7-28 | Over every run the log only grows at its end and no board's table goes back to an older version: no update is lost. |
| ReplicatedLog.HolderIsCurrent | components/routing/routing/src/utils.c:28-38 | The board inside the critical section edits the table that holds the whole log. |
| ReplicatedLog.StepKeepsOrder | components/routing/sync/src/follower.c:21-23 | Every step keeps that what the holder of the token sent lies in each inbox before the grant that follows it. |
| ReplicatedLog.StepKeepsLog | components/routing/routing/src/utils.c:28-38 | Every step keeps that tables and copies on their way are prefixes of the log in ascending order whose last is the whole log. |
| HopByHop.OneTokenHopByHop | components/routing/sync/src/leader.c:14-60 | With broadcasts whose copies reach one board after the other while all boards act, each waiting for its own last copy to be back: over every run, grants yet to be acted on plus boards inside is 1 while the leader has the token out and 0 otherwise. |
| HopByHop.OneLogHopByHop | components/routing/shared_state/src/shared_state.c:51-76 | There too one log explains all tables: each is the fold of a prefix, that of the board inside, and of any board that has no copy left to come, the fold of all of it. |
| HopByHop.HopTablesOnlyAdvance | components/routing/shared_state/src/shared_state.c:7-28 | There too the log only grows and no table goes back to an older version. |
| HopByHop.HopKeeps | components/internal/ring_link_internal/broadcast.c:20-76 | Every step, the passing on of any copy included, keeps that only the holder's table is under way and that every board has the whole log or has it coming. |
| SharedStates.SharedState.constructor | components/routing/shared_state/src/shared_state.c:30-49 | Nothing is watched at first. |
| SharedStates.SharedState.Watch | components/routing/shared_state/src/shared_state.c:65-67 | Only the component's region changes. |
| SharedStates.SharedState.OnSiblingMessage | components/routing/shared_state/src/shared_state.c:7-28 | A copy for a known, watched component of exactly the region's length becomes the region's contents; any other message, an empty one too, changes no region and panics; a region with another buffer never changes. |
| SharedStates.SharedState.BroadcastData | components/routing/shared_state/src/shared_state.c:51-63 | What is sent is the component's id and then the whole region, or the id alone if nothing is watched. |
| SharedStates.SharedState.Refresh | components/routing/shared_state/src/shared_state.c:69-76 | Inside the critical section the whole region is sent; outside nothing is sent and a panic is counted. |
| SharedStates.Replicate | components/routing/shared_state/src/shared_state.c:51-76 | Round trip: a refresh delivered to another device makes its region a copy and leaves the refreshed one as it was. |
| Provisioning.AtMostOneProvisioner | components/routing/routing/src/forwarder/peer.c:29-60 | Over every run without a panic, with all kinds of events, at most one board of a home node takes the provisioning branch of the handshake, and every forwarder's node network is (0,0) or the one that board was given. |
| Provisioning.QuiescentAgreement | components/routing/routing/src/forwarder/sibling.c:32-52 | After only start, connect and handshake events, a node at rest without a panic has equal tables on all boards, and either no board is provisioned or all hold their own share of one network, the shares being pairwise disjoint within the shift bound. |
| Provisioning.NoSecondProvisioner | components/routing/routing/src/routing.c:40-104 | Once the node is provisioned, no board inside its critical section that has dispatched its sibling events still lacks a network. |
| Provisioning.StepKeepsProvisioning | components/routing/routing/src/routing.c:37-109 | Every step of every board keeps that provisions on their way, queues, scripts and board states agree on one network. |
| Provisioning.SiblingEffect | components/routing/routing/src/forwarder/sibling.c:32-52 | A provision gives a fresh board its share and leaves a provisioned one as it is; no sibling event returns a board to lacking a network or announces a provision. |
| RootProvisioning.ForwardersAgree | components/routing/routing/src/root.c:15-36 | For a node with a root as its center, at rest after start, connect and handshake events and without a panic: at most one handshake took the provisioning branch, all forwarders hold their share of its network or, if there was none, of the root's, and all tables are equal. |
| RootProvisioning.RootPrevailsExactlyIfFirst | components/routing/routing/src/forwarder/sibling.c:32-52 | So the forwarders hold shares of the root's own network if and only if no handshake provided another one. |
| RootProvisioning.EarlyHandshakeRuns | components/routing/routing/src/forwarder/peer.c:29-60 | Five steps from the start after which a peer has provisioned the forwarder of a root, served before the center. |
| RootProvisioning.RootIsOverruled | components/routing/routing/src/forwarder/sibling.c:32-37 | However that node goes on in a calm run, at rest its forwarder holds the peer's network, whatever the root's. |
| RootProvisioning.StepKeepsRoot | components/routing/routing/src/routing.c:37-109 | Every step of a calm run keeps that each forwarder holds the prevailing network or is given it before any other. |
| RootProvisioning.NoneLacks | components/routing/routing/src/routing.c:40-104 | Once a network has been provided, no forwarder inside its critical section that has dispatched its sibling events lacks one. |
| Roles.NetworkIsNeverForgotten | components/routing/routing/src/forwarder/peer.c:29-60 | No sibling or peer event returns a forwarder to the state without a network. |
| Forwarders.Dependencies.AddGlobalRoute | components/routing/routing/src/utils.c:28-33 | The shared table object becomes the fold of all edits so far, this one last. |
| Forwarders.Dependencies.RemoveRoutesByOutput | components/routing/routing/src/utils.c:35-38 | The same for a removal by output. |
| Forwarders.FindFreeSpot | components/routing/routing/src/utils.c:40-47 | The index found is the first slot with a zero address, or the length if there is none. |
| Forwarders.ForwarderCore.constructor | components/routing/routing/src/forwarder/forwarder.c:6-19 | The initial state: no network, not connected, no distance. |
| Forwarders.ForwarderCore.OnPeerConnected | components/routing/routing/src/forwarder/peer.c:11-27 | Connected is set and the peer is sent the networks and distance. |
| Forwarders.ForwarderCore.OnPeerHandshake | components/routing/routing/src/forwarder/peer.c:29-60 | Only a forwarder without a network takes the provided one, becomes local root, routes the default to itself and then announces; any other adds the external route only. |
| Forwarders.ForwarderCore.OnPeerUpdateDtr | components/routing/routing/src/forwarder/peer.c:62-85 | A distance of 0 or no improvement changes nothing; an improvement is taken plus one modulo 2^32, routed and announced. |
| Forwarders.ForwarderCore.AddHagRoutes | components/routing/routing/src/forwarder/peer.c:90-95 | All sixteen slots are added in order, or none, by the first slot's address alone. |
| Forwarders.ForwarderCore.OnPeerNewGatewayRequest | components/routing/routing/src/forwarder/peer.c:87-119 | After the routes, a forwarder at distance 1 repeats the request each time, one that already asks does not, any other starts asking, forgets its distance and repeats it. |
| Forwarders.ForwarderCore.OnPeerNewGatewayResponse | components/routing/routing/src/forwarder/peer.c:121-142 | A response that is not better is ignored; a better one ends the request, makes the board local root and is announced as the winner. |
| Forwarders.ForwarderCore.OnPeerLost | components/routing/routing/src/forwarder/peer.c:144-162 | The routes through the board are removed; only the local root starts a gateway request, with an empty list. |
| Forwarders.ForwarderCore.OnSiblUpdateDtr | components/routing/routing/src/forwarder/sibling.c:8-30 | A better distance is taken as it is, ends local root and is passed to a connected peer; ties are refused. |
| Forwarders.ForwarderCore.OnSiblProvision | components/routing/routing/src/forwarder/sibling.c:32-52 | A board with a network keeps its state; any other takes its share. |
| Forwarders.ForwarderCore.OnSiblSendNewGatewayRequest | components/routing/routing/src/forwarder/sibling.c:54-84 | Four conditions drop the request; otherwise the board starts asking and sends the list with its network in the first free slot. |
| Forwarders.ForwarderCore.OnSiblNewGatewayWinner | components/routing/routing/src/forwarder/sibling.c:86-115 | At distance 1 only the response is sent; any other board takes the winner's distance plus one and responds with it. |
| Centers.HomeCore.constructor | components/routing/routing/src/home.c:39-48 | A home starts unprovisioned. |
| Centers.HomeCore.OnStart | components/routing/routing/src/home.c:12-14 | The start only refreshes the table. |
| Centers.HomeCore.OnSiblProvision | components/routing/routing/src/home.c:16-37 | The first provision adds the route to the center's own subnet; every later one changes nothing. |
| Centers.RootCore.constructor | components/routing/routing/src/root.c:71-84 | The timer starts idle. |
| Centers.RootCore.OnStart | components/routing/routing/src/root.c:15-36 | The center becomes the default gateway and then announces the root network at distance 1. |
| Centers.RootCore.OnSiblSendNewGatewayRequest | components/routing/routing/src/root.c:38-44 | A request starts the ten seconds afresh. |
| Centers.RootCore.OnTick | components/routing/routing/src/root.c:46-69 | The countdown never underflows; the winner is broadcast when the tick takes up what is left. |
| Centers.FiresExactlyWhenDue | components/routing/routing/src/root.c:38-69 | Over any interleaving of requests and ticks, an event makes the timer fire if and only if it is the first tick at which the time since the latest request reaches 10000 ms. |
| Centers.FiresOncePerWindow | components/routing/routing/src/root.c:46-69 | Between two firings there is a request. |
| Centers.TimerCountsDown | components/routing/routing/src/root.c:46-69 | After any events the countdown is 10000 ms minus the time since the latest request, and idle when there was none or it is over. |
| RoutingDevices.Routing.constructor | components/routing/routing/src/routing.c:212-217 | A new board holds just the start event. |
| RoutingDevices.Routing.OnSiblingMessage | components/routing/routing/src/routing.c:17-35 | An event is appended and one request made, or the queue is full or the length wrong and nothing but the panic happens. |
| RoutingDevices.Routing.QueuePeerMessage | components/routing/routing/src/routing.c:111-122 | The same for the bounded peer queue. |
| RoutingDevices.Routing.DispatchSibling | components/routing/routing/src/routing.c:44-69 | Each sibling event has the outcome of the role's handler; events without a handler change nothing. |
| RoutingDevices.Routing.DispatchPeer | components/routing/routing/src/routing.c:76-104 | The same for peer events; home and root have no peer handlers. |
| RoutingDevices.Routing.OnCriticalSection | components/routing/routing/src/routing.c:37-109 | All queued sibling events in order, then all peer events in order, each once, then both queues are empty; the table is the fold of the edits made. An event of unknown id ends the section after the events before it: one panic, and both queues stay as they were. |
| RoutingDevices.KnownEventsRun | components/routing/routing/src/routing.c:37-109 | With known ids only, what that method does is what all queued events come to, siblings' first: the specification that the node machine is held to. |
| RoutingDevices.Routing.DoRoute | components/routing/routing/src/routing.c:231-241 | Wi-Fi just when the table looks the address up to this board. |
| RoutingDevices.BoardRunsItsQueues | components/routing/routing/src/routing.c:37-109 | In the node machine, from the moment a board takes its grant until it can leave, however the other boards' steps interleave, it carries out the same actions in the same order as that method, its table has had exactly their edits, and its state is the same but for a root's timer. |
| RoutingTables.OperationsRefineMap | components/routing/routing/src/routing_table.c:13-71 | After any sequence of adds and removes the array is sorted by descending mask with unique keys and at most 16 entries, and stands for the bounded map that the same sequence builds (an add to a full map of a new key changes nothing). |
| RoutingTables.RouteIsLongestPrefixMatch | components/routing/routing/src/routing_table.c:73-83 | First match in the array is the unique longest matching prefix of the map, and the default gateway is returned if and only if nothing matches. |
| RoutingTables.LookupAfterOperations | components/routing/routing/src/routing_table.c:13-83 | Both together: lookup after any sequence of operations with contiguous masks is longest-prefix match in the map that the sequence builds. |
| RoutingTables.OnlyZeroAddsMoveTheGateway | components/routing/routing/src/routing_table.c:20-23 | Only adding (0,0) moves the default gateway, and it moves nothing else. |
| RoutingTables.RoutingTable.constructor | components/routing/routing/src/routing_table.c:13-17 | The table is empty with the given default gateway. |
| RoutingTables.RoutingTable.FindPosition | components/routing/routing/src/routing_table.c:25-39 | The loop stops at the same key, at the first smaller mask, or at the end. |
| RoutingTables.RoutingTable.InsertAtPosition | components/routing/routing/src/routing_table.c:46-56 | The shift to the right and the write insert the entry at the position and keep the order of the others. |
| RoutingTables.RoutingTable.AddRoute | components/routing/routing/src/routing_table.c:19-57 | The array after an add is the specified table: gateway, replaced output, unchanged full table or insertion; a panic is counted just when the route is lost. |
| RoutingTables.LostExactlyIfFull | components/routing/routing/src/routing_table.c:41-44 | A route is lost if and only if the map is full and lacks its network. |
| RoutingTables.RoutingTable.RemoveByOutput | components/routing/routing/src/routing_table.c:59-71 | The compaction loop leaves the order-preserving filter. |
| RoutingTables.RoutingTable.Route | components/routing/routing/src/routing_table.c:73-83 | The loop returns the first match or the default gateway. |
| Networks.ComputeMaskSize | components/routing/routing/src/utils.c:7-15 | The shifting loop counts 32 minus the trailing zeros, hence the prefix length of a contiguous mask. |
| Networks.SubnetIsBlock | components/routing/routing/src/utils.c:17-26 | The shifts and the bitwise or give the orientation's block of eight equal blocks of an aligned parent of length at most 27. |
| Networks.SubnetRefinesParent | components/routing/routing/src/utils.c:17-26 | A child of an aligned parent is aligned, three bits longer and inside the parent. |
| Networks.SubnetsOfSiblingsAreDisjoint | components/routing/routing/src/utils.c:17-26 | Different orientations give disjoint and different subnets. |
| Networks.SubnetsCoverParent | components/routing/routing/src/utils.c:17-26 | Every address of the parent is in one of the eight blocks. |
| Networks.LastIsInBlockSeven | components/integration/node/node.c:140-149 | The last /30 that the root announces is in block 7, which no orientation has. |
| Networks.LinkIsInBlockZero | components/integration/node/node.c:158-160 | The link /30 at the base of a device network is in its block 0, which no orientation has. |
| Networks.NodeSetAsAp | components/integration/node/node.c:134-168 | The network, gateway and own address that the reassignments compute, for each role. |
| Networks.AnnouncementsAreInside | components/integration/node/node.c:134-168 | What a device announces lies in its network, and holds its gateway and own address. |
| AddressTree.TreeIsConflictFree | components/routing/routing/src/utils.c:17-26 | Over every provisioning tree within the shift bound, home subnets, links and the root's uplink are pairwise disjoint and inside the root network. |
| AddressTree.DelegatedLength | components/routing/routing/src/forwarder/peer.c:35-36 | Lengths grow by three per delegation and networks stay nested; from a /8 exactly the nodes at depth 6 or less can be divided. |
| DtrFlooding.DtrFloodEnds | components/routing/routing/src/forwarder/peer.c:62-85 | On any topology, from any start and in any delivery order a flood of distance updates ends: it is no longer than what the updates at its start are worth, wraps of the increment included. |
| DtrFlooding.DistancesOnlyFall | components/routing/routing/src/forwarder/peer.c:69-76 | Where the largest distance at the start plus the number of devices without one is below 2^32 - 1, no distance ever exceeds that sum, so no increment wraps, and no device's distance ever rises (0 counting as the largest). |
| MixedFlooding.MixedFloodEnds | components/routing/routing/src/forwarder/sibling.c:8-84 | Any flood of distance updates and gateway requests together ends, although requests set distances back to 0. |
| DtrFlooding.WrapsExactlyAtTheMaximum | components/routing/routing/src/forwarder/peer.c:73-76 | An accepted peer update fails to lower the distance (0 counting as the largest) if and only if the peer announced 2^32 - 1. |
| DtrFlooding.BoundIsTight | components/routing/routing/src/forwarder/peer.c:73-76 | A network in which that sum is 2^32 - 1 and an accepted update raises a distance. |
| DtrFlooding.UpdateLowersRank | components/routing/routing/src/forwarder/sibling.c:8-30 | Every update that is accepted below the maximum strictly lowers the distance, every other changes nothing and sends nothing. |
| GatewayFlooding.GatewayFloodEnds | components/routing/routing/src/forwarder/sibling.c:54-84 | On any topology and delivery order a flood of gateway requests is no longer than the measure of its start, the repetitions at distance 1 included. |
| GatewayFlooding.ListsStayPacked | components/routing/routing/src/forwarder/peer.c:87-119 | Where every node has a network, every list on its way stays packed throughout the flood. |
| GatewayFlooding.DeliverLowersMeasure | components/routing/routing/src/forwarder/peer.c:87-119 | Every delivery lowers (devices not asking, weighted events on their way). |
| GatewayFlooding.EmittedPathsArePacked | components/routing/routing/src/forwarder/sibling.c:67-83 | A forwarded list is the received one with the node's network after its used slots; a repeated one is unchanged. |
| ResponseFlooding.FourDeliveriesReturn | components/routing/routing/src/forwarder/peer.c:121-142 | Two nodes joined by two links, in which a winner, its response, the winner that starts and the response to that bring the network back to the very state it was in. |
| ResponseFlooding.RepliesNeedNotEnd | components/routing/routing/src/forwarder/sibling.c:86-115 | So floods of winners and responses of any length exist. |
| ResponseFlooding.LadderGoesOn | components/routing/routing/src/forwarder/peer.c:121-142 | A second such state, with no board at distance 1: four responses follow each other round the two links, every delivery leads to the next state of a ladder, and so a flood goes on until distances wrap. |
| ResponseFlooding.SixteenDeliveriesRise | components/routing/routing/src/forwarder/peer.c:121-142 | Sixteen deliveries further up the ladder the boards are the same, with every distance four higher. |
| ResponseFlooding.LadderHasNoOnes | components/routing/routing/src/forwarder/sibling.c:86-115 | On the whole ladder no board is at distance 1. |
| ReplyTopologies.RepliesEndExactlyWithoutCycles | components/routing/routing/src/forwarder/sibling.c:86-115 | For any wiring of fewer than 2^31 boards into nodes and links: from every state of the boards, with any replies on their way, floods of winners and responses are bounded, whatever the delivery order and wraps included, if and only if no way from board through sibling to the board across its link comes back to where it started. |
| ReplyTopologies.RepliesEnd | components/routing/routing/src/forwarder/sibling.c:86-115 | Where some rank of the boards falls wherever a response is passed on, a flood is no longer than what the replies at its start are worth, from every state; no condition on distances. |
| ReplyTopologies.CycleHasNoBound | components/routing/routing/src/forwarder/peer.c:121-142 | Where the links close a cycle, however winding, there is a state from which floods have no bound. |
| ReplyTopologies.RankExists | components/routing/routing/src/forwarder/sibling.c:86-115 | Without such a way back, how far a response can still be passed is such a rank. |
| ReplyTopologies.MakeSimple | components/routing/routing/src/forwarder/peer.c:121-142 | Every closed way contains one that uses no board twice, in either role, so that distances can be laid out along it. |
| Roles.ForwardedPathGrows | components/routing/routing/src/forwarder/sibling.c:64-83 | The forwarded list is packed, one longer than the received one, and there was room for it. |
| RingBroadcast.BroadcastGoesRound | components/internal/ring_link_internal/broadcast.c:20-76 | Over every run with any number of concurrent broadcasts and other traffic on a ring of distinct ids: at most one copy of a broadcast is in flight, it has been transmitted at most TTL + 1 times, the devices that have processed it are the next ones after the origin in ring order, it is acknowledged only after every other device processed it once, and when it is no longer in flight it was acknowledged if and only if the ring has at most TTL + 1 devices. |
| RingBroadcast.EveryPayloadDies | components/internal/ring_link_lowlevel/ring_link_lowlevel.c:34-43 | Over every run, every payload, broadcast or not, with any TTL and any checksum, has at most one copy in flight and is transmitted at most once more than the TTL it started with. |
| RingAcks.AcksAreNotMixedUp | components/internal/ring_link_internal/broadcast.c:36-53 | Over every run, timeouts included, in which no device broadcasts while a copy of its own is in flight, a task is only told of the broadcast it waits for, although acknowledgements carry no id. |
| RingAcks.AcksGoWrongExactlyIfOverlapping | components/integration/node/node.c:218-226 | After any such run, starting a broadcast can lead to a wrong notice, without another timeout or overlap, if and only if a copy of the device's own is still in flight and the ring has at most TTL + 1 devices. A retry after a timeout meets that condition as long as the first copy is under way. |
| RingAcks.Chase | components/internal/ring_link_internal/broadcast.c:55-69 | From such an overlap, hearing the links on the older copy's way ends in a wrong notice. |
| RingAcks.LateAckIsTakenForTheNext | components/internal/ring_link_internal/broadcast.c:55-69 | A run of five steps in which, after a timeout, the first broadcast's return is taken for the second's, which no other device has processed. |
| RingBroadcast.StepKeepsRing | components/internal/ring_link_lowlevel/ring_link_lowlevel.c:15-43 | Every step keeps one fresh-checksummed copy per living broadcast, with as many hops left as its TTL says. |
| RingBroadcast.VerdictKeepsCast | components/internal/ring_link_lowlevel/include/ring_link_payload.h:16-16 | The hearer is the origin after exactly as many hops as there are devices; otherwise the copy goes on until its TTL is used up. |
| RingDevices.RingDevice.TransmitPayload | components/internal/ring_link_lowlevel/ring_link_lowlevel.c:15-27 | The checksum in the buffer is recomputed and the payload sent. |
| RingDevices.RingDevice.ForwardPayload | components/internal/ring_link_lowlevel/ring_link_lowlevel.c:34-43 | A payload with TTL 0 is not sent; any other goes out with TTL one lower and a fresh checksum. |
| RingDevices.RingDevice.SendBroadcast | components/internal/ring_link_internal/broadcast.c:20-36 | The one-byte id is used up even if the message is too long; otherwise one stamped payload goes out. |
| RingDevices.RingDevice.BroadcastHandler | components/internal/ring_link_internal/broadcast.c:55-76 | The origin is notified if a task waits and sends nothing; any other device hands the payload up once and forwards it. |
| RingDevices.RingDevice.InternalHandler | components/internal/ring_link_internal/ring_link_internal.c:9-23 | Broadcast, for this device, or forwarded. |
| RingDevices.RingDevice.ProcessPayload | components/internal/ring_link/ring_link.c:12-45 | A wrong checksum or unknown type drops the payload; the others get the verdict of their handler. |
| BufferPool.EveryBufferIsInOnePlace | components/internal/spi/spi.c:18-50 | Over every interleaving of the polling task, the interrupt and the three processing tasks, each of the eight buffers is in exactly one place and no queue has ever been found full. |
| BufferPool.StepMoves | components/internal/ring_link/ring_link.c:12-45 | Each step only moves one buffer: with a buffer in hand no queue of capacity 8, 8, 10 or 40 is full. |
| BufferPool.Tasks.constructor | components/internal/spi/spi.c:107-130 | The loop puts every buffer of the pool on the free queue once. |
| BufferPool.Tasks.FreeRxBuffer | components/internal/spi/spi.c:145-149 | The buffer goes to the end of the free queue; a full one would lose it. |
| BufferPool.Tasks.PollTakesBuffer | components/internal/spi/spi.c:22-24 | The polling task takes the head of the free queue. |
| BufferPool.Tasks.EndTransfer | components/internal/spi/spi.c:30-50 | A finished transfer queues its buffer, a failed one frees it. |
| BufferPool.Tasks.ProcessPayload | components/internal/ring_link/ring_link.c:47-58 | A round of the task is two steps of the machine, the second chosen by checksum and type. |
| BufferPool.Tasks.ProcessInternal | components/internal/ring_link_internal/ring_link_internal.c:25-38 | A round takes one payload and frees it once. |
| BufferPool.Tasks.ProcessNetif | components/internal/ring_link_netif/ring_link_netif.c:21-34 | A round takes one payload and frees it once. |
| Forwarding.DeliveredExactlyIfCenterAgrees | components/integration/routing_hooks/routing_hooks.c:28-79 | With equal tables and any cyclic order of the boards, a packet off all links leaves by Wi-Fi at the board that the table names after exactly as many SPI hops as that board is away, from every start, if and only if the center's hook agrees with the table on the address. |
| Forwarding.NoBoardNoExit | components/integration/routing_hooks/routing_hooks.c:45-67 | If the table names a board that is not there, the packet stays in the ring however many hops it makes. |
| Forwarding.HomeCenterAgrees | components/integration/routing_hooks/routing_hooks.c:69-79 | With one route to the center, for its own subnet, and only shorter prefixes overlapping it, a home's center agrees with the table on every address. |
| HomeTables.HomeNodeDelivers | components/integration/routing_hooks/routing_hooks.c:45-79 | Over every run of connects and handshakes that leaves a provisioned home node at rest, whose peers announced nothing inside the home's subnet and whose table has room left: packets off all links leave at the board that the table names, from every start and in any order of the boards, and those for the home's subnet at the center. |
| HomeTables.TableOfLog | components/routing/routing/src/home.c:27-31 | The table that such a log makes has the home's route, and leads all other routes and the default gateway to other boards. |
| HomeTables.StepKeepsSources | components/routing/routing/src/forwarder/peer.c:29-60 | Every step of a calm run keeps where the routes in the log and in the running handlers come from. |
| HomeTables.UnprovisionedPeerTakesTheGateway | components/routing/routing/src/forwarder/peer.c:56-59 | A peer without a network announces (0,0), and a provisioned board then makes itself the default gateway. |
| Forwarding.UnprovisionedHomeDisagrees | components/routing/routing/src/routing.c:172-172 | Before provisioning a home's table names the center for every address, and its hook disagrees. |
| Forwarding.RootCenterAgrees | components/integration/routing_hooks/routing_hooks.c:28-43 | With the center as default gateway and routes to other boards inside the root's network, the root's center agrees with the table unless the address is in that network and no route covers it. |
| RootTables.RootNodeDelivers | components/integration/routing_hooks/routing_hooks.c:28-67 | Over every run of connects and handshakes that leaves a root node at rest, that no handshake provisioned and whose peers announced networks of the root: a packet off all links leaves at the board that the table names, from every start and in any order of the boards, if and only if its address is outside the root's network or some route covers it. |
| RootTables.TableStaysInside | components/routing/routing/src/root.c:15-20 | The table that such a log makes has the center as default gateway, and every route leads to another board, for a network of the root. |
| RootTables.StepKeepsFit | components/routing/routing/src/forwarder/peer.c:56-59 | Every step keeps that the operations in the log and in the running handlers make such a table, unless a handshake provisions. |
| Forwarding.RootWithoutGatewayDisagrees | components/integration/routing_hooks/routing_hooks.c:36-42 | Once another board has become a root's default gateway, its center disagrees on every address that nothing covers. |
| Forwarding.RoutingHooks.SetRoutingHook | components/integration/routing_hooks/routing_hooks.c:111-119 | An index outside the table selects the default hook. |

## Left out

- SyncDevices.SyncDevice.OnSiblingMessage: a message naming a component of 7 or more is not modelled, because the source then reads and writes beyond its arrays, which has no defined meaning.
- Timeouts, retries and late acknowledgements of broadcasts in the node machine, whose broadcasts are atomic and succeed, so that two boards that broadcast at once are heard by all boards in one order, which the ring does not promise. `HopByHop.OneTokenHopByHop` and `HopByHop.OneLogHopByHop` prove token and log without that order; wake-up, provisioning and termination rest on it. `RingBroadcast.BroadcastGoesRound` shows what an acknowledged broadcast has done.
- Progress.NoEventIsStranded: inboxes have no bound and broadcasts do not wait, because in the source a full inbox of 10 blocks the task that fills it, and with it the ring, until a wait for an acknowledgement times out.
- HopByHop.OneTokenHopByHop: requests are not followed on their way to the leader, because they may reach it at any time; no board starts a broadcast before its last copy is back, as in the runs of `RingAcks.AcksAreNotMixedUp`.
- Peer events that arrive in the middle of the board's own dispatch.
- Boards that are missing or not yet registered: all boards exist, and the start event is queued, from the start.
- The time to live of an IP packet on its way through the node.
- Transfers that both reach the interrupt and report an error.
- The wait of broadcast_to_siblings as a method: it is a step of the ring machine.
- The checksum algorithm: it is any function of the fields that it covers.
- Wi-Fi, TCP, lwIP and FreeRTOS themselves: peer messages and addresses are inputs and outputs.
- Locks, task priorities and delays: steps are atomic.
- Reset, info, channel and priority managers, traffic counters and remote control: mostly single-branch updates, which would only add easy members.
- The gateway scripts, the flashing tools and the logging.
