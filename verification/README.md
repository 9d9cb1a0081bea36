# A verified model of the mesh router and the user session manager

This project models two components of the LoRa mesh firmware and proves properties of them for every input, every run and every interleaving.

* The **router** (`src/aodvRouter.cpp`, `src/aodvRouter.h`, `src/packet.h`): route table, seen-ID set, global user table, four kinds of pending buffer, acknowledgement buffer, and one handler per packet type. It follows RFC 3561, sections 6.5 to 6.7 and 6.11, but has no sequence numbers.
* The **user session manager** (`src/userSessionManager.h`, `.cpp`): known users, the added/removed difference sets, the ten-message inbox, and the reader-preferring lock built from two semaphores.

## How it is built

| file | content |
|---|---|
| `Packets.dfy`, `Wire.dfy`, `Layouts.dfy` | fixed-width integers (with the wrap-around of `uint8_t` counters written out), frames, headers as bytes, sealing over fixed buffers |
| `Sessions.dfy`, `Ordered.dfy` | session table as a value, the class that holds it, ascending iteration of `std::map` and `std::set` |
| `Nodes.dfy`, `Router.dfy` | one router as a value with a function per operation; the class `AODVRouter` with its fields updated in place, every method proved to do to the fields what the function does to the value |
| `Effects.dfy` | what one activation may put on the air, remember or report |
| `HandlerOutcomes.dfy`, `RouteArrival.dfy`, `CallOutcomes.dfy` | what each handler, call and timer pass does, told by the phone log, the frames handed over, the sessions, buffers and tables alone |
| `Network.dfy` | nodes, a fixed symmetric link relation, frame copies in flight; steps are deliver one copy, lose one copy, an API call, a timer pass |
| `HopCounts.dfy`, `WrapRun.dfy`, `LoopFreedom.dfy`, `LoopRun.dfy`, `ExplicitAcks.dfy`, `AckLedger.dfy`, `AckOutcomes.dfy`, `BroadcastRadius.dfy`, `Counting.dfy`, `Flood.dfy`, `FloodTheorems.dfy`, `AnyFlood.dfy`, `Integrity.dfy`, `PhoneLog.dfy`, `SessionRuns.dfy` | properties of whole network runs |
| `Mail.dfy`, `Conservation.dfy`, `ConservationRuns.dfy`, `Delivery.dfy`, `Resend.dfy`, `Gateways.dfy`, `Uplink.dfy`, `Diffs.dfy`, `InboxHistory.dfy`, `Presence.dfy`, `Parcels.dfy` | messages, data, buffers, gateways, user replication and inboxes over arbitrary histories |
| `RwLock.dfy` | the lock, one atomic step of one task at a time |

Every theorem about a function of `Nodes` or `Sessions` is a theorem about the class methods, because each method's contract equates the object's new state with that function of the old state. `Layouts.FrameRoundTrip` connects the abstract frames of `Network` with the bytes that `transmitPacket` writes and `handlePacket` reads.

## Outside inputs and hypotheses

* The tick count, `esp_random`, whether the radio queue accepts an offered packet, and whether the uplink is online are inputs of each activation (`Env`), different at every step. Nothing is assumed about them unless a theorem says so.
* A run starts from empty tables. Node IDs are neither 0 nor the broadcast address; links are symmetric and fixed.
* Hop counters are `uint8_t`. `HopCounts` and `LoopFreedom` require that no node handles a frame whose counter wraps there, that is, one that the node learns a hop count from and that stands at 255. The other theorems about network runs do not need this.
* In `LoopFreedom`, `CalmRuns`, `NoDeadEnds` and `NoRerrSent` are about runs in which no acknowledgement entry is found overdue with its retries spent. `RoutesArrive` holds of more: expiries and error reports are allowed as long as none takes away a route that something still counts on.
* `Flood` and `AnyFlood.FloodBurnsOut` are about a packet ID that is fresh: no later random draw, API call or buffered item carries it. Everything else in the network goes on at will. `AnyFlood.HandledOnce` needs no such condition.
* `Mail`, `Conservation`, `Delivery` and `Parcels` assume that random packet IDs are not 0, since 0 means "draw one"; the first three also that frames teach node IDs other than 0. `ConservationRuns` proves the latter of every network run. `RouteArrival.RrepOutcome` assumes that waiting user messages have packet IDs and that move requests wait under the node they are for, which `Conservation` and `Parcels` prove of every sequence of activations since boot.
* Sealing is an abstract pair of functions of which opening inverts sealing. Memory allocation succeeds.
* The phone link appears only as a log of notifications.

## Where the code falls short of the intention

* **Differences of more than 55 users are lost.** Chunks are cut to 57 user IDs (`src/aodvRouter.cpp:167-171`), but with the 8-byte tag a frame holds 55, and the difference sets have been cleared by then. At most the last chunk of a broadcast is ever sent. The chunk payloads alone would replicate any difference (`Diffs.ChunksReplicate`); over the radio a difference of real changes is replicated if and only if it names at most 55 users (`Diffs.RadioReplicatesIff`, concrete failure `Diffs.FiftySixUsersLost`).
* **Queueing for an unknown user** creates a session that no difference ever mentions (`Diffs.UnknownQueueBreaks`).
* **Hop counters wrap.** A step keeps every route and counter backed by a real walk if and only if it does not make a node handle a frame whose counter wraps there (`HopCounts.StepBackedIff`). `WrapRun.WrapIsReachable` is a run from empty tables, a request flooded along a line of 257 nodes, whose next delivery yields a route of 0 hops.
* **Error reports can close a loop.** A step keeps hop counts falling along next hops if and only if no counter wraps in it and no error report handled in it takes away a route through which another node still routes (`LoopFreedom.StepDescendingIff`); it keeps the network in the state from which this can be said again, where also what frames in flight or remembered say of their senders is true, if and only if moreover no such frame tells of that route (`LoopFreedom.StepSureIff`, over whole runs `LoopFreedom.SureRunsIff`). `LoopRun.LoopIsReachable` is a run from empty tables, in a line of four nodes, in which the condition fails: an acknowledged message runs out of retries, the error report takes the sender's route away, the sender asks again, and a neighbour that routes through it answers. The destination in such a report is read from the sealed bytes of the entry (`src/aodvRouter.cpp:338-347`); in that run they happen to name the right node.
* **The remembered gateway may be unset or far.** The scan runs before the announcing frame's own routes are learned, and a repeated announcement does not run it again. `Uplink.NewAnnouncement` and `Uplink.ChosenFewestIff` say when a first announcement leaves a gateway remembered and when that one is nearest. From then on `Uplink.StaysNearestIff` says of each activation, and `Uplink.NearestThroughoutIff` of any sequence of them, that the target stays nearest exactly until a frame takes its route away or offers another known gateway a shorter one. `Uplink.FirstAnnouncementForgotten` and `Uplink.NearerGatewayPassedOver` are two short histories in which it goes wrong.
* **A repeated packet ID is a silent acknowledgement.** A frame that repeats the ID of a pending packet, such as the next hop passing it on, takes the entry off the buffer, and the phone that asked for the acknowledgement is told neither BLE_ACK nor BLE_ACK_FAILURE (`PhoneLog.LeavesWith`). Only an ACK frame leads to BLE_ACK.
* **Messages that wait lose their flags.** Everything flushed from a pending buffer is sent with flags 0. A message for the uplink that waited for its gateway's route is then looked up like one between users: it goes to the gateway if and only if the user table happens to place its user there (`Resend.SentTowardIff`). `Resend.UplinkMessageLostToUserSearch` is a history of four activations after which such a message waits for its user to be found although the route to the gateway is there. In `Mail` and `Conservation` a message is its packet ID, sender, destination user and payload.

## Model

| member | source | states |
|---|---|---|
| HopCounts.HopCountsAreWalks | src/aodvRouter.cpp:1932-1963 | in every run, with losses, retransmissions and removals, in which no node handles a frame whose counter wraps there, every route entry and every hop counter in flight (RREQ, UREQ, UREP, BROADCAST_INFO, RREP's `numHops`) is the length of a walk of radio links |
| HopCounts.EntryIsWalk | src/aodvRouter.cpp:741-744 | in the same runs, a route of h hops goes through a radio neighbour and a walk of exactly h links to the destination exists, so h never undercuts the distance |
| HopCounts.LearnedBackedIff | src/aodvRouter.cpp:1024-1030 | learning from a frame keeps the table backed by walks if and only if the counter learned from does not wrap |
| HopCounts.StepBackedIff | src/aodvRouter.cpp:598-727 | a step keeps the whole network backed by walks if and only if it does not make a node handle such a frame |
| WrapRun.WrapIsReachable | src/aodvRouter.cpp:776-782 | there is a run from empty tables after which the next delivery breaks it: a request flooded along 257 nodes |
| HopCounts.WrapBreaksCount | src/aodvRouter.cpp:741 | the simplest case: a request with counter 255 learned into an empty table yields a route of 0 hops that no walk backs |
| LoopFreedom.CalmRuns | src/aodvRouter.cpp:1932-1963 | in runs without expiries and without counters that wrap, in every state the next hop of every route is the destination or has a strictly shorter route to it, and every unicast frame in flight is addressed to its target or to a node with a route |
| LoopFreedom.StepDescendingIff | src/aodvRouter.cpp:847-870 | where routes are backed by walks, hop counts fall along next hops and the frame learned from tells the truth about its sender, a step keeps hop counts falling if and only if no counter wraps in it and it takes away no route through which another node still routes |
| LoopFreedom.StepSureIff | src/aodvRouter.cpp:847-870 | a step keeps all three of these, the third for every frame in flight or remembered, if and only if no counter wraps in it and it takes away no route that another node's entry or such a frame still counts on |
| LoopFreedom.SureRunsIff | src/aodvRouter.cpp:1932-1963 | the same over whole runs from empty tables: they hold in every state if and only if no step of the run does either |
| LoopFreedom.RoutesArrive | src/aodvRouter.cpp:1932-1963 | loop freedom in all those runs: following next hops from q reaches d within the hop count of q's entry for d |
| LoopFreedom.CalmIsSure | src/aodvRouter.cpp:286-325 | runs without expiries and without counters that wrap are among them |
| LoopFreedom.NoDeadEnds | src/aodvRouter.cpp:957-966 | in runs without expiries and without counters that wrap, no DATA, USER_MSG, MOVE_USER_REQ, RREP or UREP copy in flight is addressed to a node that is neither its target nor able to route to it |
| LoopFreedom.NoRerrSent | src/aodvRouter.cpp:1512-1531 | in runs without expiries and without counters that wrap no node ever puts a RERR on the air |
| LoopRun.LoopIsReachable | src/aodvRouter.cpp:286-347 | a run of four nodes from empty tables after which two of them route a third through each other and neither ever arrives |
| LoopFreedom.LoopAfterRemoval | src/aodvRouter.cpp:847-870 | the general pattern: a node that loses its route by an error report and asks a neighbour that routes through it gets a route back through that neighbour, and neither ever arrives |
| ExplicitAcks.HistoryHonest | src/aodvRouter.cpp:1592-1608 | in every run each ACK frame in flight, remembered or sent was earned by handling the packet it names |
| ExplicitAcks.NoFalseAck | src/aodvRouter.cpp:2124-2166 | if a node reported BLE_ACK for p, some node ran `handleData` or `handleUserMessage` on a copy of p addressed to it or to all nodes, received from that node, which put that very frame on the air |
| AckOutcomes.HistoryBalanced | src/aodvRouter.cpp:2056-2075 | in every run pending entries, reported outcomes and sends of a packet never exceed what its hand-offs account for |
| AckOutcomes.OneOutcome | src/aodvRouter.cpp:286-364 | a packet handed off once gets at most one of BLE_ACK and BLE_ACK_FAILURE, none while pending, and goes on the air at most 1 + 3 times |
| AckOutcomes.LeavesOnlyBy | src/aodvRouter.cpp:2168-2178 | in any step an entry leaves the ack buffer if and only if a frame repeats its ID, an ACK frame for it is handled, or a timer pass finds it overdue with retries spent |
| AckOutcomes.CleanupPartitions | src/aodvRouter.cpp:297-325 | a cleanup pass gives each entry exactly one fate and adds none: kept as it is, kept with one more attempt and a new timestamp exactly if its offer to the radio queue is accepted, or expired |
| AckOutcomes.RetryIffAccepted | src/aodvRouter.cpp:307-317 | whatever else the queue accepts or refuses in the pass, an overdue entry with retries left is offered once, gains an attempt and a new timestamp if that offer is accepted, and keeps both if it is refused |
| AckOutcomes.ElapsedIsTrue | src/aodvRouter.cpp:301 | the wrapping tick subtraction is the true elapsed time whenever that is below 2^32 |
| AckOutcomes.RetriesEnd | src/aodvRouter.cpp:297-325 | an entry that each pass finds overdue and whose own offers are accepted gains one attempt a pass and is gone after the pass that finds three |
| AckOutcomes.RetriesCounted | src/aodvRouter.cpp:297-325 | over any cleanup passes, clock and queue as they like, an entry is gone if and only if some pass found it overdue with its retries spent, and until then has one attempt more for each pass that found it overdue and had its offer accepted |
| AckLedger.HandlePacketLedger | src/aodvRouter.cpp:643-644 | receiving any frame, including an implicit acknowledgement, keeps the ledger of every packet ID |
| AckLedger.CleanupLedger | src/aodvRouter.cpp:286-364 | a cleanup pass with its reports keeps the ledger of every packet ID |
| FloodTheorems.HandledAtMostOnce | src/aodvRouter.cpp:646-652 | a broadcast DATA packet is handled at most once per node, announced to the phone exactly as often, and sent at most once per node (twice by the origin) |
| FloodTheorems.SentAtMostNPlusOne | src/aodvRouter.cpp:933-978 | in a network of N nodes it is put on the air at most N + 1 times in all |
| FloodTheorems.FloodDiesOut | src/aodvRouter.cpp:646-652 | in a run of any length its copies are delivered or lost at most N(N+1)+N times |
| FloodTheorems.FloodCovers | src/aodvRouter.cpp:933-978 | if no copy is lost, then once none is in flight exactly the nodes reachable by at least one link (the origin included) have handled it and told their phone, once |
| AnyFlood.HandledOnce | src/aodvRouter.cpp:643-652 | in every run, for frames of every type, with any IDs, no node handles a packet ID more than once |
| AnyFlood.FloodBurnsOut | src/aodvRouter.cpp:776-782 | from any state in which the copies of an ID in flight are broadcasts (RREQ, UREQ, BROADCAST_INFO or DATA to all) and no node holds it for sending again, each delivery and each loss of a copy is paid for by the fuel there was, however long the run |
| AnyFlood.RequestDiesOut | src/aodvRouter.cpp:1474-1491 | a route or user request, which no hop limit bounds, is delivered or lost at most N(N+1)+N times |
| AnyFlood.StepBurns | src/aodvRouter.cpp:643-652 | in every step a copy delivered or lost lowers the measure and nothing raises it, for broadcasts of each type |
| Flood.StepFlood | src/aodvRouter.cpp:643-664 | whatever else happens in the network, each step keeps the per-node books on the flooded packet |
| Flood.StepFuel | src/aodvRouter.cpp:643-664 | every delivery or loss of a copy strictly lowers the flood's measure and nothing raises it |
| BroadcastRadius.InfoRadius | src/aodvRouter.cpp:1060-1074 | in every run a node that handles a BROADCAST_INFO is joined to its origin by a walk of at most 5 links, and no copy in flight has a counter above 4 |
| Integrity.UserMessagesAreGenuine | src/aodvRouter.cpp:1077-1178 | in every run, whatever is lost, repeated, buffered, flushed or moved between homes, each text shown to a phone or given to the uplink was asked for by an earlier call with the same sender, recipient and text |
| Integrity.InboxesAreGenuine | src/aodvRouter.cpp:1156-1168 | the same for every message in every inbox, which is always the inbox of the user the message is for |
| Integrity.StepAuthentic | src/aodvRouter.cpp:598-727 | each step leaves only texts that were asked for in flight, in the buffers, in the ack buffer, in inboxes and in the notification log |
| Effects.DispatchEmits | src/aodvRouter.cpp:674-726 | for every type of frame but ACK, which makes a node send nothing: everything its handler sends was started by this node, is the received frame passed on, or answers it in the one way its type allows; nothing remembered is forgotten |
| Effects.LearnOnlyLearns | src/aodvRouter.cpp:740-744 | learning from a frame touches only routes, peers and the gateway notification |
| HandlerOutcomes.GateIff | src/aodvRouter.cpp:643-664 | a frame that repeats a pending ID only clears that entry, one seen before does nothing, one from this node itself or for another is only remembered; all others are handled, and only those |
| HandlerOutcomes.DataOutcome | src/aodvRouter.cpp:899-979 | handled DATA for this node adds exactly one note with its origin, text and ID and is not passed on; for all nodes it is shown and passed on; for another it goes on by the route there or draws a route error; an acknowledgement goes back exactly if the flags are the request and nothing else |
| HandlerOutcomes.UserMsgOutcome | src/aodvRouter.cpp:1077-1199 | a handled user text at the node it names: for the uplink exactly one uplink note if it is online; for a known connected user exactly one note with kind, sender, text and ID and no change to the sessions; for a known user who is not connected no note and the text last in the inbox; for an unknown user a UERR to the previous hop and no note; elsewhere passed on or a route error |
| HandlerOutcomes.RreqOutcome | src/aodvRouter.cpp:729-783 | a route request is answered, toward the node it came from, if and only if this node is the target (0 hops) or has a route of at least 2 hops to it (that many); otherwise it is passed on once with its counter raised |
| HandlerOutcomes.UreqOutcome | src/aodvRouter.cpp:1201-1238 | a user request is answered, toward the node it came from, if and only if the user is known here or the user table places it at a node with a route of at least 2 hops, with the hop count of each case; otherwise it is passed on once with its counter raised |
| HandlerOutcomes.RerrOutcome | src/aodvRouter.cpp:847-897 | an error report goes on toward its origin if and only if this is another node and has a route there, and tells the phones nothing |
| HandlerOutcomes.UerrOutcome | src/aodvRouter.cpp:1289-1333 | the same for a user error, which also takes the user out of the table if placed at the node it names |
| HandlerOutcomes.UrepOutcome | src/aodvRouter.cpp:1240-1287 | a user reply for another node is noted in the user table and goes on toward it |
| HandlerOutcomes.InfoOutcome | src/aodvRouter.cpp:981-1075 | a broadcast makes both nodes it names known, tells the phones once whether a gateway is known, and is passed on if and only if its raised counter is below 5 |
| HandlerOutcomes.GatewaysOutcome | src/aodvRouter.cpp:1002-1008 | afterwards the origin is listed as a gateway if and only if the frame announces it; the others stay as they were |
| HandlerOutcomes.AckOutcome | src/aodvRouter.cpp:2124-2166 | an ACK frame takes the packet it names off the buffer and tells BLE_ACK if and only if that packet was pending and this node's own |
| HandlerOutcomes.MoveOutcome | src/aodvRouter.cpp:1425-1450 | away from the old home a move request places the user at its origin and goes on toward the old home if there is a route |
| HandlerOutcomes.TableOutcome | src/aodvRouter.cpp:1932-1963 | of the routes exactly those improve, to the least offered through the node the frame came from, for which the frame offers strictly fewer hops; an error report removes exactly the routes it names and those through a broken node |
| RouteArrival.RrepOutcome | src/aodvRouter.cpp:785-845 | on a route reply the data that waited for the node leaves, then the move requests, then the user messages, each group in order under its IDs; then the reply goes on with its hop count raised; no data and no move request is left waiting for it |
| CallOutcomes.DataCall | src/aodvRouter.cpp:392-441 | data for all or for a routed node is handed over at once under the caller's or a drawn ID; other data waits last in line with one route request |
| CallOutcomes.UserMsgCall | src/aodvRouter.cpp:443-569 | a user message goes toward the remembered or first gateway, or the node the user table names; waits for that route, or for its user, last in line with one request; or is dropped exactly if no gateway is known or an ID is unset |
| CallOutcomes.MoveCall | src/aodvRouter.cpp:571-596 | a move request goes toward the old home or waits for a route with one route request |
| CallOutcomes.BeaconCall | src/aodvRouter.cpp:148-227 | a broadcast carries the chunks of the difference, or an empty payload if there is none, under one ID and marked as a gateway exactly if the uplink is online; the difference is forgotten |
| CallOutcomes.TransmitOutcome | src/aodvRouter.cpp:1886-1927 | a frame goes on the air if and only if it fits and the queue takes it, and is then remembered, stamped now without retries, if and only if it is for one node, asks for an acknowledgement, and that node has a route |
| CallOutcomes.TimerOutcome | src/aodvRouter.cpp:327-364 | a timer pass tells BLE_ACK_FAILURE once for each DATA packet and user message it gives up, by ascending ID, and sends the origin of each an error report in the same order |
| CallOutcomes.RetriesOnAir | src/aodvRouter.cpp:307-317 | in a pass exactly the entries that gain an attempt go on the air again, unchanged, before any error report |
| PhoneLog.StepNotes | src/aodvRouter.cpp:598-727 | in every step of the network the phone log of each node grows by exactly the notes the frame, call or timer pass calls for |
| PhoneLog.TextShownOnce | src/aodvRouter.cpp:919-958 | in every run a text for one node or for all is shown at a node exactly as often as a copy is handled there, that is once or not at all, and nothing that came in one packet is shown twice |
| PhoneLog.LeavesWith | src/aodvRouter.cpp:2124-2178 | a pending packet leaves with exactly one BLE_ACK if an ACK frame ends the wait for the node's own packet, one BLE_ACK_FAILURE if a DATA packet or user message is given up, and otherwise silently; nothing else tells either |
| PhoneLog.WordsKept | src/aodvRouter.cpp:2124-2166 | in every run the outcomes told for a packet are as many as the waits that ended so |
| SessionRuns.NodeSessionsTold | src/userSessionManager.cpp:19-172 | at every node of every run who is known, who is online on which connection and what each inbox holds are what the logins, disconnects, removals, queued texts and pops there make them |
| SessionRuns.TextShownIffOnline | src/aodvRouter.cpp:1099-1170 | in every run a text that reaches the home of a user it knows is shown at once if and only if by that history the user is online, and is the newest in the inbox otherwise |
| Parcels.ParcelsConserved | src/aodvRouter.cpp:392-441 | over any received frames, calls and timer passes, the data for single nodes and the move requests a node took in are, as a bag, those waiting for a route and those handed over |
| Parcels.ParcelsFromBoot | src/aodvRouter.cpp:1688-1741 | the same from an empty node, where nothing else is in stock |
| Presence.OnlineIff | src/userSessionManager.cpp:19-72 | over any session operations a user is online on a connection if and only if it was logged in there and since then has neither logged in again, nor been removed, nor been the one user a disconnect of that connection took offline |
| Gateways.ClosestIsFirst | src/aodvRouter.cpp:2205-2224 | of several gateways equally near the scan finds the one listed first |
| Network.StepShape | src/aodvRouter.cpp:598-727 | a step changes one node, consumes the delivered copy and puts exactly that node's new frames in flight, one copy per neighbour |
| Network.StepPlaced | src/aodvRouter.cpp:654-664 | in every step each copy in flight stays heard over a real link from the node it names as previous hop |
| Mail.SendHeld | src/aodvRouter.cpp:443-569 | one `sendUserMessage` adds the message to exactly one of the two buffers or the hand-off log, or gives it up, which happens exactly when no gateway is known for a gateway message or an ID is unset |
| Mail.GivenUpIff | src/aodvRouter.cpp:453-460 | with node IDs set, a message is given up if and only if it is for a gateway and none is known |
| Mail.FlushMsgHeld | src/aodvRouter.cpp:1260-1269 | draining the messages that waited for a user loses and duplicates none |
| Mail.FlushUserHeld | src/aodvRouter.cpp:1743-1759 | resending the messages that waited for a route loses and duplicates none |
| Conservation.EventHeld | src/aodvRouter.cpp:598-727 | any received frame that teaches set node IDs, any API call or timer pass changes the held messages by exactly those it takes in |
| Conservation.MessagesConserved | src/aodvRouter.h:444-526 | over any sequence of such activations the accepted messages equal, as a multiset, those waiting for a home, those waiting for a route and those handed over |
| Conservation.ConservedFromBoot | src/aodvRouter.h:444-526 | the same from an empty node, where nothing else is held |
| ConservationRuns.HistoryHeld | src/aodvRouter.h:444-526 | the same at every node of every network run, with no assumption on frames: there the node IDs are proved to be set |
| ConservationRuns.HistoryNamed | src/aodvRouter.cpp:1430-1436 | in every network run no frame in flight, remembered or sent teaches node ID 0 |
| Uplink.UplinkTargetKnown | src/aodvRouter.cpp:462-470 | after any activations since boot, if a gateway is known, the gateway a message for the uplink is first sent to, or waits for, is a known one (what becomes of those that wait is the subject of `Resend`) |
| Uplink.NewAnnouncement | src/aodvRouter.h:428-434 | a gateway's first announcement leaves one remembered if and only if a gateway then known, the new one included, already had a route below 255 hops; it is the scan's result by those routes |
| Uplink.RepeatedAnnouncement | src/aodvRouter.h:431-433 | an announcement that repeats a known gateway changes neither the gateways nor the choice |
| Uplink.UnroutedNeverChosen | src/aodvRouter.cpp:1002-1031 | a gateway without a route when it announces itself is never the one remembered then |
| Uplink.ChosenFewestIff | src/aodvRouter.cpp:1002-1031 | after a first announcement the remembered gateway is of fewest hops if and only if the frame has not itself taught a shorter route to the announcing gateway or to the neighbour it came from |
| Uplink.PlayFromScan | src/aodvRouter.cpp:2205-2224 | over any activations since boot the remembered gateway is what the last scan found, and gateways have only been taken away since |
| Uplink.UplinkChoice | src/aodvRouter.cpp:2205-2224 | over any activations since boot a gateway is remembered if and only if the last scan saw one with a route below 255 hops; the remembered one was then of fewest hops, and is so as long as no known gateway's route has changed since |
| Uplink.LearnedFewestIff | src/aodvRouter.cpp:1024-1031 | a gateway of fewest hops stays so when a frame is learned from if and only if the frame neither takes its route away nor offers another known gateway a route shorter than it has and is offered |
| Uplink.StaysNearestIff | src/aodvRouter.cpp:462-470 | an activation of any kind that does not take the target off the list keeps it of fewest hops if and only if it is not the handling of such a frame |
| Uplink.NearestThroughoutIff | src/aodvRouter.cpp:462-470 | over any number of such activations the target is of fewest hops all along if and only if none of them is |
| Uplink.FirstAnnouncementForgotten | src/aodvRouter.h:428-434 | a booted node that twice hears its neighbour announce itself has a one-hop route to the gateway and remembers none |
| Uplink.NearerGatewayPassedOver | src/aodvRouter.h:428-434 | two announcements after which messages for the uplink go to a gateway three hops away although another is one hop away |
| Gateways.ClosestIsNearest | src/aodvRouter.cpp:2205-2224 | the scan returns a known gateway whose route has fewest hops, or none exactly when no known gateway is routed below 255 hops |
| Gateways.AddKeeps | src/aodvRouter.h:428-434 | adding a gateway keeps the remembered one unset or known |
| Gateways.RemoveKeeps | src/aodvRouter.h:436-442 | so does removing one, which takes exactly that gateway off the list |
| Delivery.UrepDrains | src/aodvRouter.cpp:1240-1271 | after the reply reaches the requester no message for that user waits or was buffered again; each was handed over once, in arrival order, under its own ID, toward the node the reply names; other buffers are untouched |
| Delivery.MoveHandsOver | src/aodvRouter.cpp:1425-1470 | at the old home the user now belongs to the requester, is unknown and in the removed difference, and every inbox message, in order and under its own ID, was handed over toward the requester or waits for a route to it |
| Delivery.FlushConserves | src/aodvRouter.cpp:1688-1734 | however routes come and go between its iterations, the data flush hands each pending item over once, under its own ID or a drawn one, or keeps it, in order in both groups, and touches no other destination |
| Delivery.FlushUnderConstant | src/aodvRouter.cpp:1702-1733 | with a table that stays the same that loop is the flush of the model |
| Resend.FlushUserResends | src/aodvRouter.cpp:1743-1759 | when a route appears, every message that waited for it leaves in order, under its own ID and without flags: toward the home the user table gives its user now, or to wait for that user or for that home's route, with one request each; all else that waits stays |
| Resend.SentTowardIff | src/aodvRouter.cpp:1752-1756 | such a message is sent toward the node it waited for if and only if the user table places its user there |
| Resend.UplinkMessageStrays | src/aodvRouter.cpp:472-489 | a message for the uplink that waited for its gateway, its user not in the table, is not sent to the gateway when the route appears but waits for its user, with a user request |
| Resend.UplinkMessageLostToUserSearch | src/aodvRouter.cpp:472-489 | a history of four activations since boot in which that happens |
| Diffs.ChunksReplicate | src/aodvRouter.cpp:187-224 | payloads alone: a difference of any size, applied chunk by chunk, makes the remote users of this node the old ones plus added minus removed |
| Diffs.OnlyLastChunkFits | src/aodvRouter.cpp:1886-1890 | of the chunks of a difference at most the last gets past the size check, and only if it holds 1 to 55 IDs |
| Diffs.RadioReplicatesIff | src/aodvRouter.cpp:167-171 | over the radio a difference in which every entry changes something is replicated if and only if it names at most 55 users |
| Diffs.RadioReplicatesExactly | src/aodvRouter.cpp:167-171 | any difference is replicated over the radio if and only if every ID of it that does not get out changes nothing at the remote node |
| Diffs.FiftySixUsersLost | src/aodvRouter.cpp:167-171 | when 56 users log in after boot, the next broadcast puts nothing on the air, and the difference is forgotten |
| Diffs.StoryTracks | src/userSessionManager.cpp:19-54 | over any session operations that queue for known users only, any publications (over the radio, of at most 55 users), other nodes' announcements that name none of this node's users, and replies, moves and user errors that say nothing false of this node and move none of its users but those with a change still to be published: added and removed are disjoint and say exactly how known users differ from what the remote node holds |
| Diffs.PublishTracksIff | src/aodvRouter.cpp:148-227 | a publication of any size over the radio keeps that bookkeeping if and only if every ID that does not get out changes nothing at the remote node |
| Diffs.ForeignTracksIff | src/aodvRouter.cpp:1034-1058 | another node's announcement keeps it if and only if each of this node's users it names has a change of its own waiting to be published |
| Diffs.ToldTracksIff | src/aodvRouter.cpp:1245-1251 | a UREP or MOVE_USER_REQ the remote node learns from keeps it if and only if it changes nothing about who is at this node, or its user has a change of its own waiting |
| Diffs.DeniedTracksIff | src/aodvRouter.cpp:1296-1305 | a UERR keeps it if and only if it takes none of this node's users away, or that user has a change of its own waiting |
| Diffs.OwnAnswersTrack | src/aodvRouter.cpp:1209-1214 | so what this node itself answers keeps it: a reply for a user it knows, an error for one it does not |
| Diffs.LearningApplies | src/aodvRouter.cpp:1245-1251 | a router's user table after learning from a frame of any type is the one these events give |
| Diffs.InSyncAfterPublish | src/userSessionManager.cpp:126-138 | right after each publication short enough to be sent the remote node places exactly the home's known users there |
| Diffs.PayloadsInSync | src/aodvRouter.cpp:187-224 | if payloads arrived whatever their size, the remote node would be in step after every publication of any size |
| Diffs.UnknownQueueBreaks | src/userSessionManager.cpp:140-151 | queueing keeps that bookkeeping if and only if the user is known |
| Diffs.BroadcastSendsChanges | src/aodvRouter.cpp:148-227 | with room in the radio queue a broadcast puts exactly the chunks that fit on the air, under one packet ID, and forgets the difference |
| Diffs.HearingApplies | src/aodvRouter.cpp:1033-1058 | a router that hears such a frame updates its user table as the two payload loops say |
| InboxHistory.InboxIsNewest | src/userSessionManager.cpp:140-172 | over any interleaving of session operations an inbox holds the newest ten of what was queued since it was last emptied, oldest first |
| RwLock.WritersExclude | src/userSessionManager.h:116-147 | for any number of tasks and any interleaving, a writer never overlaps a reader or another writer |
| RwLock.CounterIsExact | src/userSessionManager.h:116-137 | in every state of every interleaving the counter is the number of tasks between increment and decrement |
| RwLock.NoDeadlock | src/userSessionManager.h:116-147 | as long as some task is inside a lock call or a critical section, one of those can move |
| RwLock.EveryCallReturns | src/userSessionManager.h:116-147 | once nobody starts a new call, every schedule ends within nine steps a task, with everybody out |
| RwLock.StepSafe | src/userSessionManager.h:116-147 | every atomic step keeps the ownership of both semaphores and the counter consistent |
| RwLock.ReaderWriterLock.Advance | src/userSessionManager.h:116-147 | one atomic step of the four lock methods, on the lock's fields |
| RwLock.ReaderWriterLock.constructor | src/userSessionManager.cpp:4-9 | both semaphores free, nobody inside |
| Wire.HeaderLayout | src/packet.h:183-199 | which bytes of the header and of the nonce hold which field, least significant first |
| Wire.HeaderRoundTrip | src/packet.h:183-217 | the 20 header bytes are read back as the header they were written from |
| Wire.ParseRoundTrip | src/packet.h:201-217 | and any 20 bytes are written back as they were read |
| Wire.SealRoundTrip | src/aodvRouter.cpp:1863-1912 | a frame is sealed if and only if header, body and tag fit in 255 bytes; the receiver rebuilds the same nonce and gets back the plain text and the header, unchanged if and only if bit 7 of its flags was clear |
| Wire.SerialiseBaseHeader | src/packet.h:183-199 | the first 20 bytes of the buffer become the header's bytes, the rest stays |
| Wire.DeserialiseBaseHeader | src/packet.h:201-217 | the header the first 20 bytes encode |
| Wire.BuildNonce | src/aodvRouter.h:25-33 | the 12 nonce bytes of a header |
| Wire.Seal | src/aodvRouter.cpp:1863-1908 | filling the two fixed buffers gives exactly the sealed frame, or nothing when it does not fit |
| Wire.OpenInPlace | src/aodvRouter.cpp:598-641 | decrypting in the received buffer leaves there the frame as if sent in the clear, or refuses exactly when opening does |
| Layouts.BodyLayout | src/packet.h:77-175 | the type byte of each packet, and which bytes of its extension header and payload hold which field |
| Layouts.EncodedLength | src/packet.h:77-175 | the length used for size checks is the number of bytes of each extension header and payload |
| Layouts.BodyRoundTrip | src/packet.h:223-471 | every extension header of the modelled packet types, whatever its lifetime and padding, and every payload is read back from its bytes |
| Layouts.FrameRoundTrip | src/aodvRouter.cpp:1863-1912 | sealing refuses exactly the oversize frames and a receiver reads any other as sent, with bit 7 of its flags clear |
| Layouts.TextFits | src/aodvRouter.cpp:1886-1890 | a DATA text fits up to 223 bytes, a user text up to 215, so the 200 bytes a phone may send always fit |
| Router.AODVRouter.constructor | src/aodvRouter.cpp:9-19 | an empty node |
| Router.AODVRouter.UpdateRouteEntry | src/aodvRouter.cpp:1932-1963 | the table with the entry set if absent or strictly longer |
| Router.AODVRouter.InvalidateRoute | src/aodvRouter.cpp:1981-2022 | exactly the entries neither for the two nodes nor via the broken one survive, unchanged |
| Router.AODVRouter.TransmitPacket | src/aodvRouter.cpp:1828-1928 | what is handed over, offered to the radio queue and remembered |
| Router.AODVRouter.StoreAckPacket | src/aodvRouter.cpp:2056-2075 | the entry stored under the packet ID, stamped now, with no attempt |
| Router.AODVRouter.SendDataTo | src/aodvRouter.cpp:392-441 | the node after `sendData` |
| Router.AODVRouter.SendUserMsg | src/aodvRouter.cpp:443-569 | the node after `sendUserMessage` |
| Router.AODVRouter.SendMoveUser | src/aodvRouter.cpp:571-596 | the node after `sendMoveUserReq` |
| Router.AODVRouter.SendInfo | src/aodvRouter.cpp:148-227 | the node after `sendBroadcastInfo` |
| Router.AODVRouter.SendChunks | src/aodvRouter.cpp:187-224 | the two-index loop sends the chunks of the difference in order |
| Router.AODVRouter.FlushDataQueue | src/aodvRouter.cpp:1688-1734 | the node after the data flush |
| Router.AODVRouter.FlushMoveReqBuffer | src/aodvRouter.cpp:1736-1741 | the node after resending waiting move requests |
| Router.AODVRouter.FlushUserRouteBuffer | src/aodvRouter.cpp:1743-1759 | the node after resending messages that waited for a route |
| Router.AODVRouter.FlushUserMsgBuffer | src/aodvRouter.cpp:1260-1269 | the node after resending messages that waited for a user's home |
| Router.AODVRouter.RecomputeClosestGateway | src/aodvRouter.cpp:2205-2224 | the remembered gateway is the one the scan finds |
| Router.AODVRouter.NoteGateway | src/aodvRouter.h:428-434 | the node after `addGateway` |
| Router.AODVRouter.DropGateway | src/aodvRouter.h:436-442 | the node after `removeGateway` |
| Router.AODVRouter.OnRreq | src/aodvRouter.cpp:729-783 | the node after `handleRREQ` |
| Router.AODVRouter.OnRrep | src/aodvRouter.cpp:785-845 | the node after `handleRREP` |
| Router.AODVRouter.OnRerr | src/aodvRouter.cpp:847-897 | the node after `handleRERR` |
| Router.AODVRouter.OnData | src/aodvRouter.cpp:899-979 | the node after `handleData` |
| Router.AODVRouter.OnInfo | src/aodvRouter.cpp:981-1075 | the node after `handleBroadcastInfo` |
| Router.AODVRouter.ClaimUsers | src/aodvRouter.cpp:1033-1058 | the user table after the two payload loops, each stopping when the payload runs out |
| Router.AODVRouter.OnUserMessage | src/aodvRouter.cpp:1077-1199 | the node and its sessions after `handleUserMessage` |
| Router.AODVRouter.OnUreq | src/aodvRouter.cpp:1201-1238 | the node after `handleUREQ` |
| Router.AODVRouter.OnUrep | src/aodvRouter.cpp:1240-1287 | the node after `handleUREP` |
| Router.AODVRouter.OnUerr | src/aodvRouter.cpp:1289-1333 | the node after `handleUERR` |
| Router.AODVRouter.OnAck | src/aodvRouter.cpp:2124-2166 | the node after an ACK frame |
| Router.AODVRouter.OnMoveUser | src/aodvRouter.cpp:1425-1470 | the node and its sessions after `handleMoveUserReq` |
| Router.AODVRouter.ReceivePacket | src/aodvRouter.cpp:643-726 | the node after a decrypted frame of one of the modelled packet types: implicit acknowledgement, duplicate and address checks, then the handler |
| Router.AODVRouter.SweepAckBuffer | src/aodvRouter.cpp:297-325 | the buffer and the expired entries after the first cleanup loop |
| Router.AODVRouter.CleanupAckBuffer | src/aodvRouter.cpp:286-364 | the node after a cleanup pass with its reports |
| Sessions.UserSessionManager.constructor | src/userSessionManager.cpp:4-9 | no users, empty differences |
| Sessions.UserSessionManager.AddOrRefreshUser | src/userSessionManager.cpp:19-44 | the table after a login |
| Sessions.UserSessionManager.RemoveUser | src/userSessionManager.cpp:46-54 | the table after a removal |
| Sessions.UserSessionManager.HandleBleDisconnect | src/userSessionManager.cpp:56-72 | only the least user on that connection goes offline, none if there is none |
| Sessions.UserSessionManager.QueueOfflineMsg | src/userSessionManager.cpp:140-157 | the table with the message queued and the oldest dropped if ten were there |
| Sessions.UserSessionManager.PopUserInbox | src/userSessionManager.cpp:159-172 | the whole inbox is returned and emptied; found exactly if it was not empty |
| Sessions.UserSessionManager.GetAndClearDiff | src/userSessionManager.cpp:126-138 | both differences in ascending order, then cleared |
| Ordered.AscendingIsSorted | src/userSessionManager.cpp:131-132 | copying a `std::set` lists exactly its elements, once each, in ascending order |

## Left out

- Public-key packets (`handlePubKeyReq`, `handlePubKeyResp`) and the key cache: they install no reverse routes, so the no-dead-end claims do not extend to them.
- MQTT publishing and packet injection, BLE, Wi-Fi, HTTP, JSON and the display: notifications are a log; an injected packet would not come from a radio neighbour.
- The radio manager's tasks: the radio queue is an input that accepts or refuses each offer, and delivery is one copy per neighbour in any order.
- Authenticated encryption itself: an abstract pair of functions that invert each other.
- Frames that fail decryption are dropped at once. Frames of an unknown type, and PKT_BROADCAST, which is only logged, do no more than clear a pending acknowledgement or enter the seen-ID set. None of them is part of the network model.
- Layouts.Decode: refuses every body too short for its type. `handleRREQ`, `handleRREP`, `handleRERR`, `handleData`, `handleBroadcastInfo`, `handleACK` and `handleMoveUserReq` do the same; `handleUREQ`, `handleUREP`, `handleUERR` and `handleUserMessage` make no length check, and what they do with a short body is not modelled.
- Two tasks of one node inside handlers at the same time: an activation is atomic in `Network`. The exception is `Delivery.FlushConserves`, where routes change between iterations. The one-second pauses while an inbox is forwarded are not modelled.
- Wire.Seal: requires extension header and payload of at most 255 bytes together, the size of the source's plain-text buffer.
- Memory management: allocation succeeds and buffers are values, so freeing is not modelled.
- `setOnline`, `setOffline`, `lastSeen`, `allUsers`, `getConnectedUsers` and `getBleHandle`: they do not bear on the properties.
- `_gateways` is iterated in insertion order; the source's unordered set leaves the order open.
- Headers read back from sealed entries when retries are spent are cipher text: the destination in such a RERR is an arbitrary value here, and the user ID in the notification is dropped.
- Delivery of RERR frames to the original sender: a RERR is addressed to the origin directly, so only its removal effect is modelled.
- RwLock.NoDeadlock: assumes no task asks for the lock again while it holds it, as the source's own comment demands; fairness toward writers is not claimed, since the lock prefers readers.
- FloodTheorems.FloodCovers: for packets without an acknowledgement request, in a network that otherwise behaves arbitrarily, when no copy of the packet is lost and the radio queue takes each relayed copy.
- Conservation.EventHeld: requires received frames to teach node IDs other than 0, which `ConservationRuns` proves of network runs.
- Diffs.InSyncAfterPublish: says of the remote node's table only which users it places at this node, under the conditions of `Diffs.StoryTracks`.
- Router.AODVRouter.ReceivePacket: frames of the modelled types only; public-key packets, PKT_BROADCAST and unknown types, the other cases of the same switch, are left out as said above.
- Priority inheritance and ownership of FreeRTOS mutexes: both lock semaphores are plain binary ones.
