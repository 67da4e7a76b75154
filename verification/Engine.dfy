/**
 * The distribution engine of metalbond.go and peer.go as a state machine.
 *
 * Every handler is one atomic function on the node's state. Where the code
 * ranges over a Go map, the event carries the order in which this particular
 * run visits it, so that a run of events is one run of the program under one
 * choice of iteration orders.
 */
module Engine {
  import opened Types

  datatype Direction = Incoming | Outgoing

  datatype ConnState = Connecting | HelloSent | HelloReceived | Established | Retry | Closed

  datatype Message =
    | Hello(interval: nat, isServer: bool)
    | Keepalive
    | Subscribe(vni: VNI)
    | Unsubscribe(vni: VNI)
    | Update(action: byte, path: Path)

  /**
   * A metalBondPeer. `sent` is everything ever put into its transmit channel.
   * `since` is auxiliary: where in `sent` the current subscription to a VNI began.
   */
  datatype Peer = Peer(
    direction: Direction,
    isServer: bool,
    state: ConnState,
    interval: nat,
    received: set<Entry>,
    subscribedVNIs: set<VNI>,
    sent: seq<Message>,
    since: map<VNI, nat>)

  /** The calls made on the Client interface. */
  datatype Call = AddRoute(path: Path) | RemoveRoute(path: Path)

  /**
   * A MetalBond node. `members` is the peers map; `peers` also holds closed
   * peers whose goroutine still runs. `announcedHops` is the set of hop keys of
   * myAnnouncements, with or without a source. `locked` says that a handler
   * returned with mtxSubscribers held. `lastWithdrawn` is auxiliary: the peer
   * whose removal of a path was the latest.
   */
  datatype Node = Node(
    table: set<Entry>,
    announced: set<Path>,
    announcedHops: set<Path>,
    mySubs: set<VNI>,
    subs: set<(VNI, PeerId)>,
    locked: bool,
    members: set<PeerId>,
    peers: map<PeerId, Peer>,
    calls: seq<Call>,
    lastWithdrawn: map<Path, PeerId>)

  const InitNode := Node({}, {}, {}, {}, {}, false, {}, map[], [], map[])

  // Sending

  /** msgUpdate.Serialize succeeds; the other messages always serialize. */
  predicate Encodable(m: Message) {
    m.Update? ==> m.action in {ADD, REMOVE} && m.path.dest.ipVersion in {IPV4, IPV6}
  }

  function Push(n: Node, p: PeerId, m: Message): Node
    requires p in n.peers
  {
    n.(peers := n.peers[p := n.peers[p].(sent := n.peers[p].sent + [m])])
  }

  /** sendMessage */
  predicate CanSend(peer: Peer, m: Message) {
    !peer.state.Closed? && Encodable(m)
  }

  /** metalBondPeer.SendUpdate and metalBondPeer.Subscribe, which an incoming peer refuses */
  predicate Accepts(peer: Peer, m: Message) {
    peer.state.Established? && Encodable(m) && (m.Subscribe? ==> peer.direction.Outgoing?)
  }

  function SendEstablished(n: Node, p: PeerId, m: Message): Node
    requires p in n.peers
  {
    if Accepts(n.peers[p], m) then Push(n, p, m) else n
  }

  /** The same message to every peer of `targets`; the order is immaterial, the streams are per peer. */
  function Deliver(n: Node, m: Message, targets: set<PeerId>): Node {
    n.(peers := map q | q in n.peers ::
      if q in targets && Accepts(n.peers[q], m)
      then n.peers[q].(sent := n.peers[q].sent + [m])
      else n.peers[q])
  }

  /** The subscribers distributeRouteToPeers does not skip. */
  function Targets(n: Node, vni: VNI, from: PeerId): set<PeerId>
    requires from in n.peers
  {
    set q | q in n.peers && (vni, q) in n.subs && q != from && !(n.peers[from].isServer && n.peers[q].isServer)
  }

  function Distribute(n: Node, action: byte, path: Path, from: PeerId): Node
    requires from in n.peers
  {
    Deliver(n, Update(action, path), Targets(n, path.vni, from))
  }

  /** How many peers of `order` take the message before the first that fails. */
  function Reached(n: Node, m: Message, order: seq<PeerId>): (k: nat)
    requires forall p :: p in order ==> p in n.peers
    ensures k <= |order|
  {
    if order == [] || !Accepts(n.peers[order[0]], m) then 0
    else 1 + Reached(n, m, order[1..])
  }

  /** The local-origin loops of distributeRouteToPeers and Subscribe, which give up at the first peer that fails. */
  ghost function SendToMembers(n: Node, m: Message, order: seq<PeerId>): Node
    requires forall p :: p in order ==> p in n.peers
  {
    Deliver(n, m, ToSet(order[..Reached(n, m, order)]))
  }

  // Received routes

  ghost predicate AnnouncedAt(n: Node, vni: VNI, dest: Destination) {
    exists p :: p in n.announcedHops && p.vni == vni && p.dest == dest
  }

  ghost function AddReceived(n: Node, from: PeerId, path: Path): Node
    requires from in n.peers
  {
    if path.hop.kind == STANDARD && AnnouncedAt(n, path.vni, path.dest) then n
    else if Entry(path, Remote(from)) in n.table then n
    else
      var n1 := n.(table := n.table + {Entry(path, Remote(from))});
      var n2 := Distribute(n1, ADD, path, from);
      n2.(calls := n2.calls + [AddRoute(path)])
  }

  ghost predicate HasSource(table: set<Entry>, path: Path) {
    exists s :: Entry(path, s) in table
  }

  ghost function RemoveReceived(n: Node, from: PeerId, path: Path): Node
    requires from in n.peers
  {
    if Entry(path, Remote(from)) !in n.table then n
    else
      var n1 := n.(table := n.table - {Entry(path, Remote(from))}, lastWithdrawn := n.lastWithdrawn[path := from]);
      var n2 := if HasSource(n1.table, path) then n1 else Distribute(n1, REMOVE, path, from);
      n2.(calls := n2.calls + [RemoveRoute(path)])
  }

  function SetReceived(n: Node, p: PeerId, received: set<Entry>): Node
    requires p in n.peers
  {
    n.(peers := n.peers[p := n.peers[p].(received := received)])
  }

  /** One route of `p` leaves both tables, as in the REMOVE handler, removeSubscriber and cleanup. */
  ghost function DropRoute(n: Node, p: PeerId, path: Path): Node
    requires p in n.peers
  {
    RemoveReceived(SetReceived(n, p, n.peers[p].received - {Entry(path, Remote(p))}), p, path)
  }

  /** processRxUpdate */
  ghost function RxUpdate(n: Node, p: PeerId, action: byte, path: Path): Node
    requires p in n.peers
  {
    var e := Entry(path, Remote(p));
    if action == ADD then
      if e in n.peers[p].received then n
      else AddReceived(SetReceived(n, p, n.peers[p].received + {e}), p, path)
    else if action == REMOVE then
      if e !in n.peers[p].received then n else DropRoute(n, p, path)
    else n
  }

  ghost function Purge(n: Node, p: PeerId, order: seq<Path>): (r: Node)
    requires p in n.peers
    ensures r.peers.Keys == n.peers.Keys
  {
    if order == [] then n
    else DropRoute(Purge(n, p, order[..|order| - 1]), p, order[|order| - 1])
  }

  /** `p` is the only source of `path`, so that taking it away is distributed. */
  ghost predicate OnlySource(table: set<Entry>, p: PeerId, path: Path) {
    Entry(path, Remote(p)) in table && !HasSource(table - {Entry(path, Remote(p))}, path)
  }

  /** processRxUpdate gets to distributeRouteToPeers. */
  ghost predicate Distributes(n: Node, p: PeerId, action: byte, path: Path)
    requires p in n.peers
  {
    var e := Entry(path, Remote(p));
    || (action == ADD && e !in n.peers[p].received && e !in n.table
        && !(path.hop.kind == STANDARD && AnnouncedAt(n, path.vni, path.dest)))
    || (action == REMOVE && e in n.peers[p].received && OnlySource(n.table, p, path))
  }

  // Subscriptions of peers

  /** The snapshot loop of addSubscriber: own NAT routes are not echoed. */
  predicate Skipped(p: PeerId, e: Entry) {
    e.source == Remote(p) && e.path.hop.kind == NAT
  }

  function SendSnapshot(n: Node, p: PeerId, order: seq<Entry>): (r: Node)
    requires p in n.peers
    ensures r.peers.Keys == n.peers.Keys
  {
    if order == [] then n
    else
      var n1 := SendSnapshot(n, p, order[..|order| - 1]);
      var e := order[|order| - 1];
      if Skipped(p, e) then n1 else SendEstablished(n1, p, Update(ADD, e.path))
  }

  /**
   * processRxSubscribe. A second SUBSCRIBE for the same VNI returns from
   * addSubscriber without releasing mtxSubscribers.
   */
  function RxSubscribe(n: Node, p: PeerId, vni: VNI, order: seq<Entry>): Node
    requires p in n.peers
  {
    if (vni, p) in n.subs then
      n.(peers := n.peers[p := n.peers[p].(subscribedVNIs := n.peers[p].subscribedVNIs + {vni})], locked := true)
    else SendSnapshot(Joined(n, p, vni), p, order)
  }

  /** The peer has been put into the subscriber set. */
  function Joined(n: Node, p: PeerId, vni: VNI): Node
    requires p in n.peers
  {
    var peer := n.peers[p].(subscribedVNIs := n.peers[p].subscribedVNIs + {vni});
    n.(peers := n.peers[p := peer.(since := peer.since[vni := |peer.sent|])], subs := n.subs + {(vni, p)})
  }

  ghost function RemoveSubscriber(n: Node, p: PeerId, vni: VNI, order: seq<Path>): (r: Node)
    requires p in n.peers
    ensures r.peers.Keys == n.peers.Keys
  {
    if (vni, p) !in n.subs then n
    else
      var n1 := Purge(n, p, order);
      n1.(subs := n1.subs - {(vni, p)})
  }

  ghost function RxUnsubscribe(n: Node, p: PeerId, vni: VNI, order: seq<Path>): Node
    requires p in n.peers
  {
    var n1 := RemoveSubscriber(n, p, vni, order);
    n1.(peers := n1.peers[p := n1.peers[p].(subscribedVNIs := n1.peers[p].subscribedVNIs - {vni})])
  }

  // Connection state

  type PurgeOrder = seq<(VNI, seq<Path>)>

  ghost function RemoveSubscriptions(n: Node, p: PeerId, purges: PurgeOrder): (r: Node)
    requires p in n.peers
    ensures r.peers.Keys == n.peers.Keys
  {
    if purges == [] then n
    else
      var last := purges[|purges| - 1];
      RemoveSubscriber(RemoveSubscriptions(n, p, purges[..|purges| - 1]), p, last.0, last.1)
  }

  function SendSubscriptions(n: Node, p: PeerId, vnis: seq<VNI>): (r: Node)
    requires p in n.peers
    ensures r.peers.Keys == n.peers.Keys
  {
    if vnis == [] then n
    else SendEstablished(SendSubscriptions(n, p, vnis[..|vnis| - 1]), p, Subscribe(vnis[|vnis| - 1]))
  }

  function SendAnnouncements(n: Node, p: PeerId, paths: seq<Path>): (r: Node)
    requires p in n.peers
    ensures r.peers.Keys == n.peers.Keys
  {
    if paths == [] then n
    else SendEstablished(SendAnnouncements(n, p, paths[..|paths| - 1]), p, Update(ADD, paths[|paths| - 1]))
  }

  /** setState */
  ghost function SetState(n: Node, p: PeerId, state: ConnState, vnis: seq<VNI>, paths: seq<Path>, purges: PurgeOrder): (r: Node)
    requires p in n.peers
    ensures r.peers.Keys == n.peers.Keys
  {
    var was := n.peers[p].state;
    var n1 := n.(peers := n.peers[p := n.peers[p].(state := state)]);
    if was == state then n1
    else if state.Established? then SendAnnouncements(SendSubscriptions(n1, p, vnis), p, paths)
    else RemoveSubscriptions(n1, p, purges)
  }

  function NoteHello(n: Node, p: PeerId, interval: nat, isServer: bool): Node
    requires p in n.peers
  {
    n.(peers := n.peers[p := n.peers[p].(isServer := isServer, interval := Min(n.peers[p].interval, interval))])
  }

  /** processRxHello up to the transition to HELLO_RECEIVED. */
  ghost function RxHello(n: Node, p: PeerId, interval: nat, isServer: bool, purges: PurgeOrder): Node
    requires p in n.peers
  {
    SetState(NoteHello(n, p, interval, isServer), p, HelloReceived, [], [], purges)
  }

  // Local operations

  /** MetalBond.Subscribe: publishes, then sends until the first peer that fails. */
  ghost function LocalSubscribe(n: Node, vni: VNI, order: seq<PeerId>): Node
    requires forall p :: p in order ==> p in n.peers
  {
    if vni in n.mySubs then n
    else SendToMembers(n.(mySubs := n.mySubs + {vni}), Subscribe(vni), order)
  }

  function UnsubscribedPeer(peer: Peer, vni: VNI): Peer {
    if peer.direction.Incoming? then peer
    else
      peer.(
        received := (set e | e in peer.received && e.path.vni != vni),
        sent := if CanSend(peer, Unsubscribe(vni)) then peer.sent + [Unsubscribe(vni)] else peer.sent)
  }

  /** The body of MetalBond.Unsubscribe's loop, for the peers of `done`. */
  function UnsubscribeMembers(n: Node, vni: VNI, done: set<PeerId>): Node {
    n.(table := (set e | e in n.table && !(e.path.vni == vni && e.source.Remote? && e.source.id in done)),
       peers := (map q | q in n.peers :: if q in done then UnsubscribedPeer(n.peers[q], vni) else n.peers[q]))
  }

  /** MetalBond.Unsubscribe: nobody is told about the removed routes, not even the client. */
  function LocalUnsubscribe(n: Node, vni: VNI): Node {
    if vni !in n.mySubs then n
    else UnsubscribeMembers(n, vni, n.members).(mySubs := n.mySubs - {vni})
  }

  ghost function Announce(n: Node, path: Path, order: seq<PeerId>): Node
    requires forall p :: p in order ==> p in n.peers
  {
    if path in n.announced then n
    else
      var n1 := n.(announced := n.announced + {path}, announcedHops := n.announcedHops + {path});
      SendToMembers(n1, Update(ADD, path), order)
  }

  ghost function Withdraw(n: Node, path: Path, order: seq<PeerId>): Node
    requires forall p :: p in order ==> p in n.peers
  {
    if path !in n.announced then n
    else
      var n1 := n.(announced := n.announced - {path}, announcedHops := n.announcedHops - {path});
      SendToMembers(n1, Update(REMOVE, path), order)
  }

  /** IsRouteAnnounced creates the hop key it asks about. */
  function Probe(n: Node, path: Path): Node {
    n.(announcedHops := n.announcedHops + {path})
  }

  // Leaving

  function UnsubscribeAll(n: Node, vnis: seq<VNI>): (r: Node)
    ensures r.peers.Keys == n.peers.Keys
  {
    if vnis == [] then n
    else LocalUnsubscribe(UnsubscribeAll(n, vnis[..|vnis| - 1]), vnis[|vnis| - 1])
  }

  /** How many paths of `order` the peer's table holds before the first it does not. */
  function PresentPrefix(received: set<Entry>, p: PeerId, order: seq<Path>): (k: nat)
    ensures k <= |order|
  {
    if order == [] || Entry(order[0], Remote(p)) !in received then 0
    else 1 + PresentPrefix(received, p, order[1..])
  }

  /** cleanup's removal loop, which returns at the first path the peer's table does not hold. */
  ghost function PurgeWhilePresent(n: Node, p: PeerId, order: seq<Path>): (r: Node)
    requires p in n.peers
    ensures r.peers.Keys == n.peers.Keys
  {
    Purge(n, p, order[..PresentPrefix(n.peers[p].received, p, order)])
  }

  ghost function Cleanup(n: Node, p: PeerId, vnis: seq<VNI>, order: seq<Path>): (r: Node)
    requires p in n.peers
    ensures r.peers.Keys == n.peers.Keys
  {
    PurgeWhilePresent(UnsubscribeAll(n, vnis), p, order)
  }

  // Runs

  datatype Event =
    | EvConnect(p: PeerId, direction: Direction, interval: nat)
    | EvForget(p: PeerId)
    | EvSendControl(p: PeerId, m: Message)
    | EvHello(p: PeerId, interval: nat, isServer: bool, purges: PurgeOrder)
    | EvSetState(p: PeerId, state: ConnState, vnis: seq<VNI>, paths: seq<Path>, purges: PurgeOrder)
    | EvUpdate(p: PeerId, action: byte, path: Path)
    | EvSubscribe(p: PeerId, vni: VNI, snapshot: seq<Entry>)
    | EvSubscribeEarly(p: PeerId, vni: VNI)
    | EvUnsubscribe(p: PeerId, vni: VNI, paths: seq<Path>)
    | EvCleanup(p: PeerId, vnis: seq<VNI>, paths: seq<Path>)
    | EvLocalSubscribe(vni: VNI, order: seq<PeerId>)
    | EvLocalUnsubscribe(vni: VNI)
    | EvAnnounce(path: Path, order: seq<PeerId>)
    | EvWithdraw(path: Path, order: seq<PeerId>)
    | EvProbe(path: Path)

  ghost function ReceivedAt(n: Node, p: PeerId, vni: VNI): set<Path>
    requires p in n.peers
  {
    set e | e in n.peers[p].received && e.path.vni == vni :: e.path
  }

  ghost function SnapshotAt(n: Node, vni: VNI): set<Entry> {
    set e | e in n.table && e.path.vni == vni
  }

  ghost function SubscribedBy(n: Node, p: PeerId): set<VNI> {
    set s | s in n.subs && s.1 == p :: s.0
  }

  /** Each inner order lists the routes the peer still has when its VNI is reached. */
  ghost predicate PurgeOrdersOk(n: Node, p: PeerId, purges: PurgeOrder)
    requires p in n.peers
  {
    purges == [] ||
    var before := purges[..|purges| - 1];
    var last := purges[|purges| - 1];
    && PurgeOrdersOk(n, p, before)
    && Enumerates(last.1, ReceivedAt(RemoveSubscriptions(n, p, before), p, last.0))
  }

  function VNIsOf(purges: PurgeOrder): seq<VNI> {
    seq(|purges|, i requires 0 <= i < |purges| => purges[i].0)
  }

  ghost predicate PurgesAllOf(n: Node, p: PeerId, purges: PurgeOrder)
    requires p in n.peers
  {
    && PurgeOrdersOk(n, p, purges)
    && Enumerates(VNIsOf(purges), SubscribedBy(n, p))
  }

  ghost predicate CanSetState(n: Node, p: PeerId, state: ConnState, vnis: seq<VNI>, paths: seq<Path>, purges: PurgeOrder)
    requires p in n.peers
  {
    && (state.Established? ==> Enumerates(vnis, n.mySubs) && Enumerates(paths, n.announcedHops))
    && (!state.Established? && state != n.peers[p].state ==>
          !n.locked && PurgesAllOf(n.(peers := n.peers[p := n.peers[p].(state := state)]), p, purges))
  }

  ghost predicate CleanupOrders(n: Node, p: PeerId, vnis: seq<VNI>, paths: seq<Path>) {
    && p in n.peers
    && Enumerates(vnis, n.peers[p].subscribedVNIs)
    && Enumerates(paths, set e | e in UnsubscribeAll(n, vnis).peers[p].received :: e.path)
  }

  /**
   * What must hold for a handler to run to its end: with mtxSubscribers held
   * for good, that it does not come to a place that needs it. EvSubscribeEarly is a
   * SUBSCRIBE on a peer that is not ESTABLISHED, which conforming peers never cause
   * (Handshake.SubscribeOnlyWhenEstablished). A received
   * UPDATE names IP version 4 or 6 (Codec.DecodedUpdateIsEncodable).
   */
  ghost predicate Enabled(n: Node, e: Event) {
    match e
    case EvConnect(p, _, _) => p !in n.peers
    case EvForget(p) => p in n.peers
    case EvSendControl(p, m) => p in n.peers && (m.Hello? || m.Keepalive?)
    case EvHello(p, interval, isServer, purges) =>
      p in n.peers && CanSetState(NoteHello(n, p, interval, isServer), p, HelloReceived, [], [], purges)
    case EvSetState(p, state, vnis, paths, purges) =>
      p in n.peers && CanSetState(n, p, state, vnis, paths, purges)
    case EvUpdate(p, action, path) =>
      p in n.peers && path.dest.ipVersion in {IPV4, IPV6} && !(n.locked && Distributes(n, p, action, path))
    case EvSubscribe(p, vni, snapshot) =>
      && p in n.peers && !n.locked && Enumerates(snapshot, SnapshotAt(n, vni))
      && (n.peers[p].state.Established? || (vni, p) in n.subs)
    case EvSubscribeEarly(p, vni) =>
      p in n.peers && !n.locked && !n.peers[p].state.Established? && (vni, p) !in n.subs
    case EvUnsubscribe(p, vni, paths) =>
      p in n.peers && !n.locked && Enumerates(paths, ReceivedAt(n, p, vni))
    case EvCleanup(p, vnis, paths) =>
      && CleanupOrders(n, p, vnis, paths)
      && (n.locked ==> forall x :: x in paths ==> !OnlySource(UnsubscribeAll(n, vnis).table, p, x))
    case EvLocalSubscribe(_, order) => MembersInOrder(n, order)
    case EvLocalUnsubscribe(_) => true
    case EvAnnounce(path, order) => MembersInOrder(n, order) && !(n.locked && path !in n.announced)
    case EvWithdraw(path, order) => MembersInOrder(n, order) && !(n.locked && path in n.announced)
    case EvProbe(_) => true
  }

  ghost predicate MembersInOrder(n: Node, order: seq<PeerId>) {
    Enumerates(order, n.members) && n.members <= n.peers.Keys
  }

  ghost function Step(n: Node, e: Event): Node
    requires Enabled(n, e)
  {
    match e
    case EvConnect(p, direction, interval) =>
      n.(members := n.members + {p},
         peers := n.peers[p := Peer(direction, false, Connecting, interval, {}, {}, [], map[])])
    case EvForget(p) => n.(members := n.members - {p})
    case EvSendControl(p, m) => if CanSend(n.peers[p], m) then Push(n, p, m) else n
    case EvHello(p, interval, isServer, purges) => RxHello(n, p, interval, isServer, purges)
    case EvSetState(p, state, vnis, paths, purges) => SetState(n, p, state, vnis, paths, purges)
    case EvUpdate(p, action, path) => RxUpdate(n, p, action, path)
    case EvSubscribe(p, vni, snapshot) => RxSubscribe(n, p, vni, snapshot)
    case EvSubscribeEarly(p, vni) => Joined(n, p, vni)
    case EvUnsubscribe(p, vni, paths) => RxUnsubscribe(n, p, vni, paths)
    case EvCleanup(p, vnis, paths) => Cleanup(n, p, vnis, paths)
    case EvLocalSubscribe(vni, order) => LocalSubscribe(n, vni, order)
    case EvLocalUnsubscribe(vni) => LocalUnsubscribe(n, vni)
    case EvAnnounce(path, order) => Announce(n, path, order)
    case EvWithdraw(path, order) => Withdraw(n, path, order)
    case EvProbe(path) => Probe(n, path)
  }

  // Handlers that never return

  /** With mtxSubscribers held, the handler starts and then waits for it. */
  ghost predicate Blocks(n: Node, e: Event) {
    n.locked &&
    match e
    case EvHello(p, _, _, _) => p in n.peers && !n.peers[p].state.HelloReceived?
    case EvSetState(p, state, _, _, _) => p in n.peers && !state.Established? && state != n.peers[p].state
    case EvUpdate(p, action, path) =>
      p in n.peers && path.dest.ipVersion in {IPV4, IPV6} && Distributes(n, p, action, path)
    case EvSubscribe(p, _, _) => p in n.peers
    case EvUnsubscribe(p, _, _) => p in n.peers
    case EvCleanup(p, vnis, paths) =>
      CleanupOrders(n, p, vnis, paths) && exists x :: x in paths && OnlySource(UnsubscribeAll(n, vnis).table, p, x)
    case EvAnnounce(path, order) => MembersInOrder(n, order) && path !in n.announced
    case EvWithdraw(path, order) => MembersInOrder(n, order) && path in n.announced
    case _ => false
  }

  /** The route is out of both tables, and its removal still to be distributed. */
  function HaltedDrop(n: Node, p: PeerId, path: Path): Node
    requires p in n.peers
  {
    var n1 := SetReceived(n, p, n.peers[p].received - {Entry(path, Remote(p))});
    n1.(table := n1.table - {Entry(path, Remote(p))}, lastWithdrawn := n1.lastWithdrawn[path := p])
  }

  /** How many routes of `order` leave before the first whose only source is `p`. */
  ghost function Unhindered(table: set<Entry>, p: PeerId, order: seq<Path>): (k: nat)
    ensures k <= |order|
  {
    if order == [] || OnlySource(table, p, order[0]) then 0 else 1 + Unhindered(table, p, order[1..])
  }

  ghost function HaltedPurge(n: Node, p: PeerId, order: seq<Path>): Node
    requires p in n.peers
  {
    var k := Unhindered(n.table, p, order);
    if k == |order| then Purge(n, p, order) else HaltedDrop(Purge(n, p, order[..k]), p, order[k])
  }

  /** What a handler that blocks has done by then. */
  ghost function Halted(n: Node, e: Event): Node
    requires Blocks(n, e)
  {
    match e
    case EvHello(p, interval, isServer, _) =>
      var n1 := NoteHello(n, p, interval, isServer);
      n1.(peers := n1.peers[p := n1.peers[p].(state := HelloReceived)])
    case EvSetState(p, state, _, _, _) => n.(peers := n.peers[p := n.peers[p].(state := state)])
    case EvUpdate(p, action, path) =>
      if action == ADD then
        var n1 := SetReceived(n, p, n.peers[p].received + {Entry(path, Remote(p))});
        n1.(table := n1.table + {Entry(path, Remote(p))})
      else HaltedDrop(n, p, path)
    case EvSubscribe(p, vni, _) =>
      n.(peers := n.peers[p := n.peers[p].(subscribedVNIs := n.peers[p].subscribedVNIs + {vni})])
    case EvCleanup(p, vnis, paths) => HaltedPurge(UnsubscribeAll(n, vnis), p, paths)
    case EvAnnounce(path, _) => n.(announced := n.announced + {path}, announcedHops := n.announcedHops + {path})
    case EvWithdraw(path, _) => n.(announced := n.announced - {path}, announcedHops := n.announcedHops - {path})
    case _ => n
  }

  /** The state a run of completed handlers reaches; an event that is not enabled does not happen. */
  ghost function After(n: Node, es: seq<Event>): Node
    decreases |es|
  {
    if es == [] then n
    else
      var mid := After(n, es[..|es| - 1]);
      var e := es[|es| - 1];
      if Enabled(mid, e) then Step(mid, e) else mid
  }
}
