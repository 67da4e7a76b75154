# MetalBond: a verified model

MetalBond distributes routes of virtual networks (VNIs). Clients announce next
hops for destinations and subscribe to VNIs; a server keeps a route table in
which every next hop carries the peers it came from, forwards ADD and REMOVE
updates to the subscribers of a VNI, and takes a peer's routes out again when
the peer leaves. Clients mirror what they receive into the kernel.

This project models that logic in Dafny and states and proves what it keeps over
whole runs. To verify it: `dafny verify dfyconfig.toml`.

## How the model is built

* `Types.dfy`: the values exchanged and stored.
* `RouteTable.dfy`: the class `RouteTable` with its four-level nested map, proved
  against a plain set of (vni, destination, next hop, source) tuples and the set of
  its hop keys.
* `Engine.dfy`: the node as a value and every handler as a function on it. An
  `Event` names a handler call and the order in which it visited each Go map; a
  run is a sequence of events, and `After` is the state it reaches.
* `MetalBond.dfy`, `NodeFacts.dfy`, `Lists.dfy`: the classes `MetalBond` and
  `MetalBondPeer` with the loops of metalbond.go and peer.go. Each handler is proved
  to be one event of the engine or a named short sequence of them (`Leads`, `Ends`),
  and `RunServer` carries the main invariant over to any sequence of calls on the
  objects. A handler that waits for a lock nobody will release returns `blocked`, and
  its contract says how far it got (`Outcome`).
* `Ownership.dfy`, `Sending.dfy`, `Views.dfy`, `EndToEnd.dfy`, `Upstream.dfy`,
  `Mirror.dfy`, `LoopPrevention.dfy`, `Lock.dfy`: the theorems about runs; `EndToEnd`
  follows a connection from server to client, `Upstream` from client to server.
* `Witnesses.dfy`: runs from the initial state into the states in which a property
  fails.
* `Races.dfy`: three races at the granularity of single lock acquisitions.
* `Handshake.dfy`: both ends of a connection, one goroutine step at a time.
* `Framing.dfy`, `Proto.dfy`, `Codec.dfy`, `Wire.dfy`: the packet header, the parse
  loop over the read buffer, the protobuf encoding, the conversions of types.go, and
  what all of them amount to in bytes.
* `Netlink.dfy`: the class `NetlinkClient` over an abstract kernel table, and the
  whole way from UPDATE to kernel entry.

## Main results

* What a subscriber of a pure server has been sent since it subscribed, replayed in
  order, is the server's table, up to routes the subscriber withdrew itself and routes
  it missed by subscribing before it was ESTABLISHED (`Views.SubscriberSeesTheTable`,
  in every run of peer events); when either exception strikes is known exactly
  (`Views.SelfWithdrawalGoesStaleIff`, `Views.EarlySubscriberServedIff`). The same for
  the objects, through any connections, messages and departures
  (`MetalBonds.RunServer`).
* Under every schedule of the client's select loop the client's own table plus the
  updates still under way equal what the server sent; when nothing is under way, the
  client holds exactly the routes somebody still announces, subscription by
  subscription, and one that has unsubscribed exactly what was under way then leaves
  behind (`EndToEnd.ClientStaysInStep`, `EndToEnd.ClientConverges`,
  `EndToEnd.ClientConvergesAgain`, `EndToEnd.UnsubscribedClientHolds`).
* In the other direction, a client's unsubscription reaches the server: as long as the
  server has it subscribed UNSUBSCRIBE is under way, and who is not subscribed and does
  not ask to be is sent no UPDATE of the VNI (`Upstream.UnsubscriptionArrives`,
  `Upstream.UnsubscribedHearsNothing`); a SUBSCRIBE that waits in its channel when the
  UNSUBSCRIBE behind it is handled, and only that, leaves the client subscribed
  (`Upstream.OvertakenSubscribeIff`).
* From every state of every run of the handshake both ends can come to be ESTABLISHED,
  an ESTABLISHED client faces an ESTABLISHED server, and it can be heard
  (`Handshake.EstablishmentIsPossible`, `Handshake.EstablishmentIsAgreed`,
  `Handshake.EstablishedClientIsHeard`).
* Whoever leaves takes exactly its own routes along, and the early return in
  `cleanup` is never taken (`Ownership.ConnectionLost`,
  `Ownership.CleanupRemovesExactly`).
* From a received UPDATE to the kernel entry of its destination
  (`KernelMirror.KernelFollowsTheNode`).
* No announcement or subscription is lost in a race with the connection being
  established, and no hop is lost in a race between SUBSCRIBE and ADD; exactness, in
  contrast, is lost in two interleavings, and only in those
  (`EstablishRace.NothingIsLost`, `SubscribeRace.EveryHopIsTold`,
  `SubscribeRace.ExactWhenQuiet`, `SubscribeRace.ExactIffDisciplined`). A route
  withdrawn while the greeting of an ESTABLISHED peer holds it in a snapshot survives
  at the server, and only such a route (`WithdrawRace.WithdrawalIsExactIff`).
* What a run can still do after a duplicate SUBSCRIBE has left mtxSubscribers locked:
  no subscriber set changes, each peer stores at most one more route and hangs, no
  received route is distributed, and the client hears of exactly the withdrawals that
  leave another source (`Lock.WedgedForEver`).
* Messages survive the wire whatever the reads look like, as long as they end
  between packets (`Codec.MessagesSurviveTheWire`); which bytes they are on it is said
  field by field and in numbers (`Wire.UpdateOnTheWire`, `Wire.UpdateOffTheWire`,
  `Wire.HeaderOnTheWire`).

## Where code and documentation or expectation differ

The model follows the code.

* `deserializeHelloMsg` drops the isServer flag (`Codec.HelloRoundTrip`), so the
  server-to-server filter never applies between two real nodes.
* The documentation speaks of packets; the reader assumes that each read ends
  between two of them. A read that ends inside a header stops the reader for good
  (`Framing.CutHeaderStopsTheReader`).
* An UPDATE with a destination and without a next hop is read through a nil pointer
  (`Codec.MissingNextHopCrashes`, with the eight bytes `Codec.CrashingPayload`).
* A second SUBSCRIBE for a VNI leaves mtxSubscribers locked: handlers that need it hang
  half-way, and those that do not go on and tell the client to drop hops other peers
  still have (`Lock.LockedIffDuplicate`, `Lock.WedgedForEver`,
  `Witnesses.LockedNodeStillCalls`).
* A SUBSCRIBE ahead of ESTABLISHED is taken, and the subscriber misses what others have
  announced until it is ESTABLISHED (`Views.EarlySubscriberServedIff`,
  `Witnesses.EarlySubscriberMissesRoute`); two conforming ends never get there
  (`Handshake.SubscribeOnlyWhenEstablished`), and then nothing is missed
  (`Views.ConformingRunsMissNothing`).
* An UPDATE that is queued when the client unsubscribes is stored and installed
  afterwards (`EndToEnd.QueuedAddOutlivesUnsubscribe`).
* SUBSCRIBE and UNSUBSCRIBE travel in order but wait in different channels, so that a
  client can end unsubscribed with the server still sending it everything
  (`Upstream.OvertakenSubscribeIff`, `Upstream.OvertakenIsReachable`).
* `IsRouteAnnounced` leaves an empty hop key behind, after which STANDARD routes for
  that destination are refused (`LoopPrevention.ProbeBlocksStandardRoutes`) and an
  ESTABLISHED peer is sent the route although it is not announced.
* A HELLO with interval 0 resets an incoming peer and is then processed as usual, so
  that a peer just closed and forgotten ends in HELLO_SENT; on an outgoing peer the
  reset waits for the goroutine it runs in (`MetalBonds.MetalBond.ProcessRxHello`).
* The client is told to remove a hop that other peers still source
  (`Mirror.RemoveReceivedMirror`), and is not told about a local unsubscription
  (`Mirror.UnsubscribeKeepsWithinIff`, `Witnesses.UnsubscribedClientKeepsRoute`).
* Two VNIs mapped to one kernel table overwrite each other
  (`Netlink.AlwaysAgreesIffInjective`).

## Model

| member | source | states |
|---|---|---|
| RouteTables.SourcedMeansHopsAreTuplePaths | routetable.go:11-20 | the table has no empty inner map if and only if its hop keys are exactly the paths of its tuples |
| RouteTables.WrittenRepresents | routetable.go:148-172 | writing one innermost cell changes the represented tuples at that path only, and leaves no empty map exactly when the cell is not empty |
| RouteTables.ErasedRepresents | routetable.go:121-143 | deleting a hop key and pruning upwards removes exactly that path's tuples |
| RouteTables.ErasedPruned | routetable.go:130-141 | pruning leaves no VNI without destinations and no destination without hops |
| RouteTables.RouteTable.GetVNIs | routetable.go:22-31 | each VNI that has a hop key, once |
| RouteTables.RouteTable.GetDestinationsByVNI | routetable.go:33-54 | exactly the hop keys of the VNI, grouped by destination, each once |
| RouteTables.RouteTable.GetDestinationsByVNIWithPeer | routetable.go:56-81 | exactly the tuples of the VNI, grouped by destination and hop, each source once |
| RouteTables.RouteTable.GetNextHopsByDestination | routetable.go:83-103 | exactly the hop keys of the destination, each once |
| RouteTables.RouteTable.RemoveNextHop | routetable.go:105-146 | removes exactly one tuple or fails and changes nothing; returns the number of sources left; prunes; keeps the no-empty-map invariant |
| RouteTables.RouteTable.AddNextHop | routetable.go:148-172 | adds exactly one tuple or fails and changes nothing; keeps the no-empty-map invariant |
| RouteTables.RouteTable.NextHopExists | routetable.go:174-196 | answers membership; keeps the no-empty-map invariant exactly when the hop key was there before |
| MetalBonds.MetalBond.constructor | metalbond.go:41-57 | a new node is the initial state of every run; interval 0 becomes 5 |
| MetalBonds.MetalBond.DistributeFrom | metalbond.go:247-275 | the update goes to every ESTABLISHED subscriber of the VNI except the origin and server-to-server pairs, and to nobody else; it waits exactly when mtxSubscribers is held |
| MetalBonds.MetalBond.SendToAll | metalbond.go:224-242 | local origin: the peers before the first that fails get the message, no others; success exactly when none fails |
| MetalBonds.MetalBond.AddReceivedRoute | metalbond.go:323-355 | refines the engine's AddReceived: loop check, table, distribution, client call; with the lock held it hangs exactly when the route is stored, the tuple being there already; succeeds exactly when the route is stored or skipped |
| MetalBonds.MetalBond.RemoveReceivedRoute | metalbond.go:357-381 | refines RemoveReceived: REMOVE is distributed only for the last source, the client is called for every one; with the lock held it hangs exactly for the last source; fails exactly when the tuple is missing |
| MetalBonds.MetalBond.ProcessRxUpdate | peer.go:544-573 | is one EvUpdate event, run to its end or as far as the lock lets it |
| MetalBonds.MetalBond.PurgeHops | metalbond.go:447-455 | drops the listed hops in order; each is found, so the error branches are dead; stops only at a last source with the lock held |
| MetalBonds.MetalBond.RemoveSubscriber | metalbond.go:428-464 | all routes of the peer in the VNI leave both tables, one by one, then the subscription; with the lock held nothing happens |
| MetalBonds.MetalBond.ProcessRxUnsubscribe | peer.go:533-542 | is one EvUnsubscribe event, run to its end or stuck at once |
| MetalBonds.MetalBond.ProcessRxSubscribe | peer.go:523-531 | is one EvSubscribe event, with the lock left held for a duplicate; or, for a peer that is neither ESTABLISHED nor subscribed, EvSubscribeEarly and then exactly the events of a reset, if and only if there was a route to send; a reset outgoing peer hangs |
| MetalBonds.MetalBond.Greet | peer.go:159-186 | every own subscription and every announced hop key is sent once |
| MetalBonds.MetalBond.RemoveSubscriptions | peer.go:190-212 | exactly the VNIs the peer is subscribed to are given up, each once |
| MetalBonds.MetalBond.SetState | peer.go:152-214 | is one EvSetState event; it hangs, the state written, exactly when a connection is lost with the lock held |
| MetalBonds.MetalBond.ProcessRxHello | peer.go:463-496 | is exactly EvHello and, for an incoming peer, the HELLO reply and HELLO_SENT; for an interval of at least 1, what is put into the transmit channel is exactly one HELLO with the lower of the two intervals and the node's role for an incoming peer that is not stuck, nothing otherwise; interval, role and state afterwards; interval 0 comes first with exactly the events of a reset, which hangs an outgoing peer and lets an incoming one go on |
| MetalBonds.MetalBond.ProcessRxKeepalive | peer.go:498-521 | exactly: ESTABLISHED for an incoming peer in HELLO_SENT, an outgoing one in HELLO_RECEIVED or one that is so already, and a KEEPALIVE answer of an incoming peer as the last message; in the other states no event and no message, and the connection is to be reset |
| MetalBonds.MetalBond.Receive | peer.go:335-361 | each message the select loop takes amounts to exactly the events of its handler, resets and hanging included, and leaves the peers map as these do |
| MetalBonds.MetalBond.Subscribe | metalbond.go:114-131 | is one EvLocalSubscribe event; for a new VNI the peers get SUBSCRIBE for this VNI as far as those visited are outgoing and ESTABLISHED, and nothing else; succeeds exactly for a new VNI when all current peers are |
| MetalBonds.MetalBond.UnsubscribePeer | peer.go:113-134 | an outgoing peer's received routes of the VNI go and exactly UNSUBSCRIBE for it is put into the transmit channel unless CLOSED; an incoming peer is unchanged; succeeds exactly when the message is sent |
| MetalBonds.MetalBond.TableHolds | metalbond.go:159-162 | the membership query on a hop that has a source changes nothing |
| MetalBonds.MetalBond.ClearTable | metalbond.go:156-166 | exactly the VNI's tuples from this peer go; no query ever meets a missing key |
| MetalBonds.MetalBond.Unsubscribe | metalbond.go:144-172 | exactly the VNI's tuples from current peers go, no empty inner map is left, exactly the current outgoing peers that are not CLOSED are sent UNSUBSCRIBE for the VNI, nothing else is sent, and the call is one EvLocalUnsubscribe event |
| MetalBonds.MetalBond.IsRouteAnnounced | metalbond.go:174-176 | answers membership and is one EvProbe event, which leaves the hop key behind |
| MetalBonds.MetalBond.AnnounceRoute | metalbond.go:178-190 | is one EvAnnounce event, or hangs with the announcement made; the peers get the ADD as far as those visited are ESTABLISHED, and nothing else; succeeds exactly for a new route with a known IP version, if there is a peer, when all current peers are ESTABLISHED |
| MetalBonds.MetalBond.WithdrawRoute | metalbond.go:192-212 | is one EvWithdraw event, or hangs with the announcement gone; the node was the only source; the peers get the REMOVE as far as those visited are ESTABLISHED, and nothing else; succeeds exactly for an announced route under the same condition |
| MetalBonds.MetalBond.PurgeAll | peer.go:244-262 | every route the peer has left is dropped, each once, up to the first that must be distributed with the lock held |
| MetalBonds.MetalBond.Cleanup | peer.go:232-263 | is one EvCleanup event, run to its end or as far as the lock lets it; the early return is dead |
| MetalBonds.MetalBond.AddPeer | metalbond.go:65-77 | is one EvConnect event, refused exactly for an address that is registered; the new peer is outgoing, CONNECTING, with the node's interval and otherwise empty |
| MetalBonds.MetalBond.Accept | metalbond.go:479-501 | the new peer, incoming, CONNECTING and otherwise empty, takes the place of one registered under its address |
| MetalBonds.MetalBond.Close | peer.go:575-583 | exactly the change to CLOSED, or nothing for a CLOSED peer; hangs exactly with the lock held |
| MetalBonds.MetalBond.RemovePeer | metalbond.go:85-99 | the peer under the address is closed and leaves the map, no other entry changes; fails exactly for an unknown address |
| MetalBonds.MetalBond.Reset | peer.go:585-606 | exactly: an outgoing peer goes to RETRY; an incoming one is closed, and whoever is registered under its address is closed and removed; a CLOSED one is left alone |
| MetalBonds.RunServer | metalbond.go:468-506 | a server object driven through any connections, messages, closes, cleanups and removals, up to the first duplicate SUBSCRIBE, is in the state of the run of exactly the events of those calls, with exactly the peers map they leave, and the invariant about views and ownership holds |
| Ownership.OwnedStep | metalbond.go:323-381 | every enabled event keeps: the table's tuples from p are among p's received routes, which are all sourced from p |
| Ownership.OwnedInEveryRun | peer.go:544-573 | that holds after every run |
| Ownership.DropRouteEffect | metalbond.go:357-381 | dropping one route removes that tuple from both tables, touches no other tuple, and sends only to subscribers of its VNI |
| Ownership.AddReceivedEffect | metalbond.go:323-355 | at most the one tuple is added, never a STANDARD one for a destination with an announced hop key; sends only to subscribers |
| Ownership.PurgeEffect | metalbond.go:445-455 | a purge removes exactly the listed routes of the peer |
| Ownership.ConnectionLost | peer.go:188-213 | after a change to another non-ESTABLISHED state the peer is in no subscriber set, its routes in the VNIs it had subscribed to are gone from both tables, every other tuple is where it was |
| Ownership.PurgeNeverStops | peer.go:249-254 | the early return of cleanup is unreachable |
| Ownership.CleanupRemovesExactly | peer.go:232-263 | afterwards neither table holds a route from the peer; others' tuples stay, except in VNIs whose own subscription cleanup ends |
| Views.AddKeepsTold | metalbond.go:334-347 | an ADD keeps every subscriber's view faithful |
| Views.DropKeepsTold | metalbond.go:357-373 | so does a removal |
| Views.SubscribeKeepsTold | metalbond.go:385-425 | a new subscriber's snapshot makes its view faithful, and leaves the other views as they were |
| Views.LossKeepsTold | peer.go:188-213 | losing a connection keeps every other subscriber's view faithful |
| Views.EstablishKeepsTold | peer.go:152-186 | a waiting subscriber that becomes ESTABLISHED is served but for the routes others have by then |
| Views.EarlySubscriberServedIff | metalbond.go:385-422 | a subscriber that asked too early has a faithful view once it is ESTABLISHED if and only if nobody else has a route in the VNI by then |
| Views.ServerInvInEveryRun | metalbond.go:218-275 | ownership and faithfulness of all views, up to what was missed, hold after every run of peer events |
| Views.ConformingRunsMissNothing | peer.go:96-111 | in a run without a SUBSCRIBE ahead of ESTABLISHED nothing is missed and nobody waits |
| Views.SubscriberSeesTheTable | metalbond.go:218-275 | for each subscription in every run of peer events: nothing is told before ESTABLISHED; then a hop somebody else sources was told if and only if it was not missed; a told hop without a source was last withdrawn by the subscriber; for hops it never announced the replay equals the table but for what was missed |
| Views.SelfWithdrawalGoesStaleIff | metalbond.go:252-254 | a subscriber's REMOVE leaves a stale route in its view if and only if it had been told the route and nobody else sources it |
| Witnesses.StaleViewIsReachable | metalbond.go:252-254 | a run into such a view, for every two peers and every route |
| Witnesses.EarlySubscriberMissesRoute | metalbond.go:385-422 | a run in which a SUBSCRIBE ahead of ESTABLISHED makes an ESTABLISHED subscriber miss a route |
| EndToEnd.StreamsGrow | metalbond.go:247-272 | streams only grow, UPDATEs go only to subscriptions running before or after the step, and only a new subscription moves the mark a view counts from |
| EndToEnd.ProcessingApplies | peer.go:544-573 | handling an UPDATE applies it to receivedRoutes; a duplicate ADD and an absent REMOVE change nothing |
| EndToEnd.ClientStaysInStep | peer.go:335-361 | under every schedule, receivedRoutes followed by the UPDATEs under way equals the replay of all that was sent, or, after an unsubscription, of what was under way then and all since |
| EndToEnd.ClientConverges | peer.go:392-459 | with nothing under way, within one subscription, a client that never announced a route and has not unsubscribed holds it if and only if somebody announces it and it was not missed |
| EndToEnd.ClientConvergesAgain | peer.go:392-459 | the same for any later subscription: what is due is held, and nothing else but what is left over from before |
| EndToEnd.UnsubscribedClientHolds | peer.go:113-134 | with nothing under way, a client that has unsubscribed holds exactly what the UPDATEs under way then, and those sent since, amount to |
| EndToEnd.QueuedAddOutlivesUnsubscribe | peer.go:544-556 | an ADD queued at the unsubscription is stored afterwards and given to the client |
| Witnesses.QueuedAddIsReachable | peer.go:335-361 | a run of server and client that puts such an ADD into the channel, for every route |
| Upstream.EveryStreamGrows | peer.go:672-712 | whatever a node does, what it has sent stays sent, in order |
| Upstream.OpenedOk | metalbond.go:479-501 | what these theorems start from holds right after the server has accepted the connection, whatever it did before |
| Upstream.UnsubscriptionArrives | peer.go:113-134 | after a local unsubscription, under every schedule and unless the client subscribes again: as long as the server has it subscribed, UNSUBSCRIBE is under way |
| Upstream.SubscriptionArrives | peer.go:96-111 | after a local subscription that got to the peer, while the connection is up and unless the client unsubscribes: the server has it subscribed or SUBSCRIBE is under way |
| Upstream.UnsubscribedHearsNothing | metalbond.go:247-272 | a client that is not subscribed and does not ask to be stays so and is sent no UPDATE of the VNI, in every continuation |
| Upstream.SubscriptionStays | peer.go:533-542 | a subscription ends with its UNSUBSCRIBE or with the connection only |
| Upstream.TakenHasEffect | peer.go:523-542 | handling SUBSCRIBE subscribes, handling UNSUBSCRIBE unsubscribes |
| Upstream.OvertakenSubscribeIff | peer.go:335-361 | after the last UNSUBSCRIBE for a VNI, once all SUBSCRIBEs are handled, the client is subscribed if and only if one of them waited in its channel when the UNSUBSCRIBE was handled |
| Upstream.OvertakenIsReachable | peer.go:335-361 | a run of subscribing and unsubscribing that ends so, from every state in which both ends are ESTABLISHED and nothing is under way |
| Sending.SubscriberIsSentTheTable | metalbond.go:403-422 | a new subscriber is sent exactly one ADD for each tuple of the VNI but its own NAT routes, in whatever order the maps are visited |
| Sending.EstablishedPeerIsGreeted | peer.go:159-186 | a peer that becomes ESTABLISHED is sent one SUBSCRIBE per subscription (outgoing only), then one ADD per announced hop key, and nothing else |
| Sending.ReachedIsFirstFailure | metalbond.go:235-239 | how far the local-origin loop gets: up to the first peer that refuses |
| Sending.SubscriptionTellsMembers | metalbond.go:114-131 | a new local subscription is recorded; the peer at place i of the visit gets exactly SUBSCRIBE for this VNI if and only if every peer visited up to it is outgoing and ESTABLISHED, otherwise nothing, and nobody else gets anything |
| Sending.AnnouncementTellsMembers | metalbond.go:178-190 | the same for a new announcement: exactly its ADD, if and only if every peer visited up to it is ESTABLISHED |
| Sending.WithdrawalTellsMembers | metalbond.go:192-212 | the same for a withdrawal: exactly its REMOVE |
| Sending.UnencodableReachesNobody | metalbond.go:224-242 | an announcement or withdrawal with an unknown IP version is sent to nobody |
| Sending.UnsubscriptionTellsMembers | metalbond.go:144-172 | each current outgoing peer that is not CLOSED is sent exactly UNSUBSCRIBE for a subscribed VNI; no other stream changes |
| Sending.ControlIsSent | peer.go:672-679 | HELLO and KEEPALIVE go out on every peer that is not CLOSED, and nothing else changes |
| Sending.SameStateIsSilent | peer.go:152-190 | setting the state a peer has already does nothing, so that it is greeted once |
| Sending.AddInWords | metalbond.go:323-355 | an ADD is stored exactly when it is new to peer and node and no STANDARD route for an announced destination; exactly then the client hears of it and the ESTABLISHED subscribers but the origin and servers of servers are sent exactly it |
| Sending.RemoveInWords | metalbond.go:357-381 | a REMOVE takes the tuple out of both tables; the client hears of each removal, the subscribers exactly of that of the last source |
| Sending.UnsubscribeInWords | metalbond.go:428-464 | UNSUBSCRIBE ends the one subscription and takes exactly the peer's routes of the VNI out of both tables, if it was subscribed |
| Mirror.RemoveReceivedMirror | metalbond.go:369-378 | removing a source keeps the client inside the table, and exact if and only if it was the last source |
| Mirror.StepMirror | metalbond.go:323-381 | every quiet event keeps the client inside the table, and exact while each hop has one source |
| Mirror.ClientMirrorsTheTable | metalbond.go:323-381 | the same over whole runs |
| Mirror.UnsubscribeKeepsWithinIff | metalbond.go:156-166 | a local unsubscription keeps the client inside the table if and only if each hop it holds in the VNI has a source that is no current peer |
| Witnesses.UnsubscribedClientKeepsRoute | metalbond.go:156-166 | a run after which the client holds a hop the table lacks, for every route |
| LoopPrevention.ProbeBlocksStandardRoutes | metalbond.go:174-176 | after a query for any hop of a destination, STANDARD routes for it are refused |
| LoopPrevention.AnnouncementsInEveryRun | metalbond.go:174-212 | announced routes are hop keys, and all of them unless a query was made |
| LoopPrevention.AnnounceFirstIsGuarded | cmd/metalbond/main.go:113-117 | when all announcements precede the first peer, no STANDARD hop is ever stored for an announced destination |
| LoopPrevention.AnnouncingKeepsTheGuardIff | metalbond.go:178-190 | announcing later keeps that if and only if no STANDARD hop for the destination was received before |
| Witnesses.LateAnnouncementIsUnguarded | metalbond.go:323-337 | a run in which a late announcement breaks it, for every STANDARD route |
| Lock.LocksIff | metalbond.go:387-395 | an event leaves the lock held if and only if it was held or the event is a duplicate SUBSCRIBE |
| Lock.LockedIffDuplicate | metalbond.go:387-395 | a run ends locked if and only if one of its events was a duplicate SUBSCRIBE |
| Lock.StuckHappening | metalbond.go:323-381 | one handler with the lock held: at most the tuple of a hanging ADD is stored, subscriber sets stay, no received route is distributed, the client's new calls are the RemoveRoutes of withdrawals that leave another source |
| Lock.WedgedForEver | metalbond.go:218-223 | the same over every continuation of a locked run: frozen subscriber sets, at most one new tuple per peer and that peer hung, UPDATEs only from greeting ESTABLISHED peers with the node's own announcements, client calls exactly one RemoveRoute per such withdrawal |
| Lock.WithdrawnStillSourced | metalbond.go:369-378 | each of those calls drops a hop that the table still has |
| Witnesses.LockedNodeStillCalls | metalbond.go:357-381 | a run in which the locked node completes a REMOVE and makes such a call |
| EstablishRace.InvStep | peer.go:152-186 | every lock-sized step keeps: what was published and not sent is still ahead of the other side's reader |
| EstablishRace.NothingIsLost | metalbond.go:114-131 | under every interleaving with setState(ESTABLISHED) each finished announcement and subscription was sent |
| SubscribeRace.InvInEveryRun | metalbond.go:334-347 | every tuple of another source was sent or is about to be |
| SubscribeRace.EveryHopIsTold | metalbond.go:385-425 | when the handlers are done, every hop from another source was sent to the new subscriber at least once |
| SubscribeRace.ExactWhenQuiet | metalbond.go:403-422 | without the two harmful interleavings the replay equals the table |
| SubscribeRace.ExactIffDisciplined | metalbond.go:334-373 | an addition or removal keeps exactness if and only if it is neither of the two |
| SubscribeRace.RemoveOvertakenBySnapshot | metalbond.go:403-422 | first harmful interleaving: a REMOVE between snapshot and sending leaves a stale route for good |
| SubscribeRace.AddOvertakenByRemove | metalbond.go:357-373 | second one, from an initial state: a late REMOVE hides a route another peer has just added |
| WithdrawRace.WithdrawalIsExactIff | metalbond.go:192-212 | a withdrawal during setState(ESTABLISHED) keeps the server exact if and only if the route does not wait in a snapshot of the greeting |
| WithdrawRace.WithdrawnRoutesAreGone | peer.go:167-185 | in every interleaving without that, the server ends with a route exactly when it is still announced |
| WithdrawRace.WithdrawnRouteSurvives | peer.go:167-185 | the harmful interleaving: snapshot, withdrawal and REMOVE, then the snapshot's ADD |
| Handshake.InvInEveryRun | peer.go:325-361 | the invariant of both ends over every run with any number of reconnects |
| Handshake.EstablishmentIsAgreed | peer.go:498-512 | client ESTABLISHED implies server ESTABLISHED, which implies client at least HELLO_RECEIVED; no KEEPALIVE meets a wrong state |
| Handshake.EstablishmentIsPossible | peer.go:463-521 | from every state of every run there is a continuation without a reconnect after which both ends are ESTABLISHED |
| Handshake.EstablishedClientIsHeard | peer.go:325-361 | a SUBSCRIBE or UPDATE of an ESTABLISHED client can come to be processed by the server on an ESTABLISHED peer |
| Handshake.SubscribeOnlyWhenEstablished | peer.go:96-111 | the server processes SUBSCRIBE only on an ESTABLISHED peer |
| Handshake.IntervalIsTheMinimum | peer.go:469-475 | both ends use the lower configured interval once the client has the server's HELLO, over any number of reconnects; no HELLO carries 0 |
| Framing.ParseRead | peer.go:386-459 | the parse loop terminates, stays in bounds or says where it panics, and yields what the recursive parse yields |
| Framing.ReadsBack | peer.go:394-398 | a sendable frame that stands in the buffer is read back, and the next packet starts behind it |
| Framing.EncodesBack | peer.go:394-398 | conversely a packet that was read stands encoded in the buffer |
| Framing.FrameFound | peer.go:394-400 | a frame that stands in the buffer has version 1, its length in two bytes with the high one first, its type and its payload there |
| Framing.RefusedPacket | peer.go:393-454 | exactly when a packet resets the connection (another version, a refused payload), stops the reader (a type other than 1 to 5) and panics (a payload beyond the buffer, a nil dereference) |
| Framing.FatalFrame | peer.go:436-444 | a packet whose deserializer dereferences nil ends the reader in a panic |
| Framing.ParsesWholeFrames | peer.go:392-459 | frames standing in the buffer come out as they went in |
| Framing.ParsedBytes | peer.go:392-459 | conversely, what a normal pass yields stands in the buffer |
| Framing.ReadUnderstoodIff | peer.go:371-372 | a read is understood as its own bytes if and only if it consists of whole acceptable frames |
| Framing.ReceivesWhatWasSent | docs/metalbond_protocol.md:5-22 | any frames, cut into reads anywhere between frames, whatever the buffer held before, are received as sent |
| Framing.CutHeaderStopsTheReader | peer.go:371-372 | a read that ends inside a header loses the packet and stops the reader |
| Proto.DecodesBack | pb/metalbond.proto:31-52 | fields written in the protobuf wire format are read back |
| Proto.ConsumesBack | pb/metalbond.proto:31-52 | every 64-bit varint is read back and leaves what follows it |
| Proto.VarintIsBase128 | pb/metalbond.proto:31-52 | a varint is groups of seven bits, the lowest first, all but the last marked by the high bit, of that value and minimal |
| Proto.ConsumesExactlyVarints | pb/metalbond.proto:31-52 | the reader takes exactly the varints of at most ten bytes and a value below 2^64, canonical or not |
| Proto.LastScalarWins | pb/metalbond.proto:31-52 | a scalar field given more than once has its last value, one not given is 0 |
| Proto.LastBytesWin | pb/metalbond.proto:31-52 | the same for bytes fields, which are empty when not given |
| Wire.HeaderOnTheWire | peer.go:704-707 | the four header bytes of every packet: 1, the length in two bytes with the high one first, the type |
| Wire.TypesOnTheWire | docs/metalbond_protocol.md:5-22 | HELLO, KEEPALIVE, SUBSCRIBE, UNSUBSCRIBE and UPDATE are types 1 to 5, sent and received |
| Wire.UpdateOnTheWire | types.go:215-260 | every value of an UPDATE by field number of the bytes Serialize gives: action 0 or 1, VNI, IP version 0 or 1, prefix, length, target, target VNI, type, ports of a NAT hop only |
| Wire.UpdateOffTheWire | types.go:295-342 | the same numbers for any bytes that deserialize, with what does not fit cut off |
| Wire.ActionAndVersion | types.go:221-236 | written or read, an UPDATE is a REMOVE exactly for action 1 and for IPv4 exactly for IP version 0 |
| Wire.HelloOnTheWire | types.go:133-152 | field 1 of HELLO is the interval, field 2 isServer |
| Wire.SubscriptionOnTheWire | types.go:166-205 | field 1 of SUBSCRIBE and UNSUBSCRIBE is the VNI |
| Wire.ControlOffTheWire | types.go:262-293 | the same fields for any bytes that deserialize; isServer is not read |
| Wire.ShortPackets | peer.go:701-709 | the bytes of HELLO, KEEPALIVE, SUBSCRIBE and UNSUBSCRIBE packets |
| Wire.UpdatePacket | peer.go:701-709 | the bytes of an UPDATE packet in which no field has its default value |
| Codec.UpdatePayloadFits | types.go:250-257 | an UPDATE payload is at most 81 bytes, so the limit of 1188 never refuses one |
| Codec.SerializesIff | types.go:215-260 | serialization fails exactly on an unknown action or IP version |
| Codec.UpdateRoundTrip | types.go:295-342 | an UPDATE comes back unchanged, up to ports of non-NAT hops, if and only if both addresses are valid and the hop has no zone |
| Codec.DecodedUpdateIsEncodable | types.go:295-342 | a received UPDATE names ADD or REMOVE and IP version 4 or 6 |
| Codec.MissingNextHopCrashes | types.go:318-325 | deserialization crashes exactly on a valid destination without a next hop |
| Codec.CrashingPayload | types.go:322-325 | eight bytes that do |
| Codec.CrashingPacketPanics | peer.go:436-444 | one packet with them ends the receive loop in a panic, whatever the buffer held |
| Codec.HelloRoundTrip | types.go:262-271 | a HELLO keeps its interval and loses isServer |
| Codec.SubscriptionRoundTrip | types.go:273-293 | SUBSCRIBE and UNSUBSCRIBE keep their VNI |
| Codec.PacketRoundTrip | peer.go:672-712 | message to packet and back |
| Codec.MessagesSurviveTheWire | peer.go:701-709 | any messages, cut into reads between packets, arrive in order and as sent |
| AddrOrder.SortedUnique | netlink.go:86-88 | two sorted lists of the same addresses with multiplicity are equal |
| AddrOrder.AddrLeIff | netlink.go:86-88 | the order of addresses: the shorter first, then the lower big-endian value, then the zone |
| AddrOrder.AddrLeIsByValue | netlink.go:86-88 | for zone-free addresses: at most as long and, of the same length, at most the same big-endian value |
| Netlink.SortByAddress | netlink.go:82-88 | the same hops, ordered by target address; what that order is says AddrOrder.AddrLeIff |
| Netlink.NextHopInfos | netlink.go:170-189 | the targets of the first three hops |
| Netlink.NetlinkClient.AddRoute | netlink.go:61-98 | one Add step for some possible outcome of the sort; the hop is cached on success; succeeds exactly for another IP version in IPv4-only mode or, with a table for the VNI, when the hop was cached or the kernel accepts |
| Netlink.NetlinkClient.RemoveRoute | netlink.go:100-138 | one Remove step; the hop is not cached after success |
| Netlink.AddInWords | netlink.go:61-98 | nothing changes, or the cached list is the old one and the hop in ascending order of address, and the kernel entry of the prefix in the VNI's table its first three targets |
| Netlink.RemoveInWords | netlink.go:100-138 | nothing changes, or exactly the hop leaves the cached list and the kernel entry is replaced likewise, or list and entry go with the last hop |
| Netlink.ThreeSmallestInWords | netlink.go:82-95 | the installed targets are the first three in ascending order of address, by value for zone-free ones, so that each is at most each hop left out |
| Netlink.StepAgrees | netlink.go:61-138 | every call keeps cache and kernel in agreement, a refused kernel operation included |
| Netlink.KernelHoldsTheCache | netlink.go:61-138 | after any calls each cached list is nonempty, duplicate-free and sorted, and the kernel holds exactly the first three targets of each and nothing else |
| Netlink.SharedTableDisagrees | netlink.go:70-95 | a second VNI on the same table destroys the agreement |
| Netlink.AlwaysAgreesIffInjective | netlink.go:70-73 | agreement after every sequence of calls if and only if no two VNIs share a table |
| Netlink.ThreeSmallestUnique | netlink.go:82-95 | the three smallest targets of a set of hops are determined by the set, although the sort is unstable |
| Netlink.KernelDependsOnHopsOnly | netlink.go:118-135 | two histories that end with the same cached hops end with the same kernel entry: the three smallest targets |
| KernelMirror.CacheFollowsCalls | netlink.go:61-138 | the cache holds exactly the admissible hops the calls leave in place |
| KernelMirror.KernelFollowsTheNode | netlink.go:169-189 | over quiet runs the cached hops are hops of the node's table; with one source per hop they are all of them, the kernel entry is their three smallest targets (Netlink.ThreeSmallestInWords), and a destination without hops has no entry |

## Left out

- TCP dial, listen and accept, socket errors, retry sleeps and goroutine teardown in `handle`, `Reset` and `txLoop`: a disconnect is the state change and the `EvCleanup` event, in any order and number; that CLOSED is final is not claimed.
- Timers and tickers of `keepaliveLoop`: only the negotiated interval and the KEEPALIVE messages are modelled.
- MetalBonds.MetalBond.Receive: that a received UPDATE names IP version 4 or 6 is a precondition, discharged by `Codec.DecodedUpdateIsEncodable`.
- What an outgoing peer does after `Reset` has waited for its goroutines (sleep, CONNECTING, a new `handle`): these are further events in any order.
- mtxPeers: a distribution that hangs also holds its read lock, so that AddPeer, Accept and RemovePeer then hang too; the runs of `Lock` include those in which they do not.
- Identity of peers: each connection object has an identity of its own, which the caller of `AddPeer` and `Accept` supplies.
- Concurrency of handlers beyond the three races: elsewhere each handler is one atomic event.
- Capacity of the channels: sends never block; with unbuffered receive channels no SUBSCRIBE could be overtaken.
- Packets that do not end with a read: only the failing example is given.
- Protobuf groups (wire types 3 and 4), which the model refuses, and UTF-8 checks: no message uses them.
- netip internals: an address is its bytes and zone; a prefix with host bits set is a key of its own, although the kernel refuses such a route.
- Resolution of the tunnel device, `Cleanup` of the kernel tables and the partial failures of netlink: a kernel operation succeeds or has no effect.
- `AddRoutesForVni`, `GetSubscribedVnis` and the other getters of metalbond.go: they only read, or repeat client calls for routes already there.
- Server-to-server communication as a feature: only the skip that exists is modelled.
- http.go, html, cmd/metalbond beyond its start-up order, extras, packaging, logging, JSON and YAML: plumbing.
- Netlink.SortByAddress: an insertion sort stands for slices.SortFunc; the theorems hold for every possible outcome of a sort.
- MetalBonds.MetalBond.SubscriptionsOf: the inner loop over a VNI's subscribers that looks for the peer is a set membership.
