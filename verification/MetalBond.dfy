/**
 * The objects of metalbond.go and peer.go. Every operation is proved to be one
 * event of Engine's state machine on the abstract value of the node, so that
 * what is proved about runs of events holds of any sequence of calls.
 */
module MetalBonds {
  import opened Types
  import opened RouteTables
  import opened Engine
  import opened Lists
  import opened Ownership
  import opened NodeFacts
  import opened Views
  import Handshake
  import Sending

  class MetalBondPeer {
    const id: PeerId
    const addr: string
    const direction: Direction
    var isServer: bool
    var state: ConnState
    var keepaliveInterval: nat
    const receivedRoutes: RouteTable
    var subscribedVNIs: set<VNI>
    /** Everything handed to the transmit channel so far. */
    var txChan: seq<Message>
    ghost var since: map<VNI, nat>

    constructor (id: PeerId, addr: string, direction: Direction, interval: nat)
      ensures this.id == id && this.addr == addr && Valid() && fresh(receivedRoutes)
      ensures Model() == Peer(direction, false, Connecting, interval, {}, {}, [], map[])
    {
      this.id, this.addr, this.direction := id, addr, direction;
      isServer, state, keepaliveInterval := false, Connecting, interval;
      receivedRoutes := new RouteTable(PeerRoutes(id));
      subscribedVNIs, txChan, since := {}, [], map[];
    }

    ghost predicate Valid()
      reads receivedRoutes
    {
      && receivedRoutes.owner == PeerRoutes(id)
      && receivedRoutes.Valid() && receivedRoutes.NoEmptyHop()
      && (forall e :: e in receivedRoutes.entries ==> e.source == Remote(id))
    }

    ghost function Model(): Peer
      reads this, receivedRoutes
    {
      Peer(direction, isServer, state, keepaliveInterval, receivedRoutes.entries, subscribedVNIs, txChan, since)
    }
  }

  class MetalBond {
    const routeTable: RouteTable
    const myAnnouncements: RouteTable
    var mySubscriptions: set<VNI>
    var subscribers: map<VNI, set<PeerId>>
    /** A handler has returned with mtxSubscribers held. */
    var subscribersLocked: bool
    /** The peers map, by remote address. */
    var registered: map<string, PeerId>
    /** All peers with a goroutine, registered or not. */
    var peers: map<PeerId, MetalBondPeer>
    /** The calls made on the Client. */
    var clientCalls: seq<Call>
    const keepaliveInterval: nat
    const isServer: bool
    ghost var lastWithdrawn: map<Path, PeerId>
    /** The address each peer was made with. */
    ghost var addrs: map<PeerId, string>

    ghost function PeerObjects(): set<MetalBondPeer>
      reads this`peers
    {
      set i | i in peers :: peers[i]
    }

    ghost function ReceivedTables(): set<RouteTable>
      reads this`peers
    {
      set i | i in peers :: peers[i].receivedRoutes
    }

    ghost function TableObjects(): set<RouteTable>
      reads this`peers
    {
      {routeTable, myAnnouncements} + ReceivedTables()
    }

    function PeerAt(p: PeerId): MetalBondPeer
      requires p in peers
      reads this`peers
    {
      peers[p]
    }

    function Members(): set<PeerId>
      reads this`registered
    {
      registered.Values
    }

    ghost function Book(): AddressBook
      reads this`registered, this`addrs
    {
      AddressBook(registered, addrs)
    }

    ghost predicate PeersValid()
      reads this`peers, ReceivedTables()
    {
      forall i :: i in peers ==> peers[i].id == i && peers[i].Valid()
    }

    ghost function PeerModels(): map<PeerId, Peer>
      reads this`peers, PeerObjects(), ReceivedTables()
    {
      map i | i in peers :: peers[i].Model()
    }

    ghost predicate AddressesValid()
      reads this`registered, this`peers, this`addrs
    {
      && (forall a :: a in registered ==> registered[a] in peers && peers[registered[a]].addr == a)
      && peers.Keys <= addrs.Keys && (forall i :: i in peers ==> addrs[i] == peers[i].addr)
    }

    ghost predicate Valid()
      reads this, TableObjects()
    {
      && routeTable.owner == NodeRoutes && myAnnouncements.owner == NodeAnnouncements
      && routeTable.Valid() && routeTable.NoEmptyHop()
      && (forall e :: e in routeTable.entries ==> e.path.dest.ipVersion in {IPV4, IPV6})
      && myAnnouncements.Valid()
      && (forall e :: e in myAnnouncements.entries ==> e.source == Local)
      && PeersValid()
      && AddressesValid()
      && (forall v :: v in subscribers ==> subscribers[v] <= peers.Keys)
    }

    ghost function Model(): (n: Node)
      reads this, PeerObjects(), TableObjects()
    {
      Node(routeTable.entries,
           PathsOf(myAnnouncements.entries),
           myAnnouncements.hops,
           mySubscriptions,
           SubsOf(subscribers),
           subscribersLocked,
           Members(),
           PeerModels(),
           clientCalls,
           lastWithdrawn)
    }

    /** What callers need of the model without looking into it. */
    lemma {:induction false} ModelBasics()
      requires Valid()
      ensures Model().peers.Keys == peers.Keys && Model().members == Members() && Members() <= peers.Keys
      ensures Model().locked == subscribersLocked && Model().mySubs == mySubscriptions
      ensures forall i :: i in peers ==> Model().peers[i] == peers[i].Model() && peers[i].id == i
      ensures forall v, q :: (v, q) in Model().subs <==> v in subscribers && q in subscribers[v]
      ensures forall i, e :: i in peers && e in Model().peers[i].received ==> e.source == Remote(i)
      ensures forall v :: v in subscribers ==> subscribers[v] <= peers.Keys
    {
      hide RouteTable.Valid;
      hide RouteTable.NoEmptyHop;
    }

    /** The same for one peer. */
    lemma {:induction false} PeerBasics(p: PeerId)
      requires Valid() && p in peers
      ensures p in Model().peers && Model().peers[p] == peers[p].Model() && peers[p].id == p
      ensures p in addrs && addrs[p] == peers[p].addr
      ensures Model().locked == subscribersLocked
      ensures forall e :: e in Model().peers[p].received ==> e.source == Remote(p)
    {
      hide RouteTable.Valid;
      hide RouteTable.NoEmptyHop;
    }

    lemma {:induction false} StreamBasics()
      requires Valid()
      ensures Model().peers.Keys == peers.Keys
      ensures forall q :: q in peers ==> Model().peers[q].sent == peers[q].txChan
      ensures forall q :: q in peers ==> Model().peers[q].state == peers[q].state && Model().peers[q].direction == peers[q].direction
    {
      hide RouteTable.Valid;
      hide RouteTable.NoEmptyHop;
      hide MetalBond.PeersValid;
    }

    lemma {:induction false} SubscriptionBasics(vni: VNI, p: PeerId)
      requires Valid()
      ensures (vni, p) in Model().subs <==> vni in subscribers && p in subscribers[vni]
    {
      hide RouteTable.Valid;
      hide RouteTable.NoEmptyHop;
      hide MetalBond.AddressesValid;
      hide MetalBond.PeersValid;
      hide MetalBond.PeerModels;
    }

    lemma {:induction false} AddressBasics(addr: string)
      requires Valid() && addr in registered
      ensures registered[addr] in peers
      ensures forall p :: p in peers <==> p in Model().peers
    {
      hide RouteTable.Valid;
      hide RouteTable.NoEmptyHop;
    }

    lemma {:induction false} TableBasics()
      requires Valid()
      ensures Model().table == routeTable.entries && routeTable.NoEmptyHop()
    {
      hide RouteTable.Valid;
      hide RouteTable.NoEmptyHop;
      hide MetalBond.AddressesValid;
      hide MetalBond.PeersValid;
    }

    constructor (keepaliveInterval: nat, isServer: bool)
      ensures Valid() && Model() == InitNode && peers == map[] && !subscribersLocked && Book() == AddressBook(map[], map[])
      ensures fresh(routeTable) && fresh(myAnnouncements)
      ensures this.keepaliveInterval == (if keepaliveInterval == 0 then 5 else keepaliveInterval) && this.isServer == isServer
    {
      this.keepaliveInterval := if keepaliveInterval == 0 then 5 else keepaliveInterval;
      this.isServer := isServer;
      routeTable := new RouteTable(NodeRoutes);
      myAnnouncements := new RouteTable(NodeAnnouncements);
      mySubscriptions, subscribers, subscribersLocked := {}, map[], false;
      registered, peers, addrs, clientCalls, lastWithdrawn := map[], map[], map[], [], map[];
      new;
      assert Model().peers == map[] && SubsOf(subscribers) == {};
    }

    // Single writes

    /** A write to fields of one peer changes that peer and nothing else of the node. */
    twostate lemma OnlyPeerWritten(p: PeerId)
      requires old(Valid()) && p in old(peers) && unchanged(this)
      requires unchanged(routeTable) && unchanged(myAnnouncements)
      requires forall i :: i in old(peers) ==> unchanged(old(peers[i]).receivedRoutes)
      requires forall i :: i in old(peers) && i != p ==> unchanged(old(peers[i]))
      ensures Valid() && Model() == WithPeer(old(Model()), p, peers[p].Model())
    {
      hide RouteTable.Valid;
      hide RouteTable.NoEmptyHop;
      hide MetalBond.AddressesValid;
      assert forall i :: i in peers && i != p ==> peers[i].Model() == old(peers[i].Model());
      assert Model().peers == old(Model()).peers[p := peers[p].Model()];
    }

    /** A write to a field of the node leaves the peers as they are. */
    twostate lemma PeersUntouched()
      requires old(PeersValid()) && unchanged(this`peers)
      requires forall i :: i in old(peers) ==> unchanged(old(peers[i])) && unchanged(old(peers[i]).receivedRoutes)
      ensures PeersValid() && PeerModels() == old(PeerModels())
    {
      hide RouteTable.Valid;
      hide RouteTable.NoEmptyHop;
      assert forall i :: i in peers ==> peers[i].Model() == old(peers[i].Model());
      assert PeerModels() == old(PeerModels());
    }

    method Send(p: PeerId, m: Message)
      requires Valid() && p in peers
      modifies PeerAt(p)`txChan
      ensures Valid() && Model() == Push(old(Model()), p, m)
      ensures peers[p].txChan == old(peers[p].txChan) + [m]
    {
      hide MetalBond.Valid;
      hide MetalBond.Model;
      ModelBasics();
      peers[p].txChan := peers[p].txChan + [m];
      OnlyPeerWritten(p);
    }

    method AddToReceived(p: PeerId, path: Path) returns (ok: bool)
      requires Valid() && p in peers
      modifies PeerAt(p).receivedRoutes
      ensures Valid()
      ensures ok <==> Entry(path, Remote(p)) !in old(Model()).peers[p].received
      ensures Model() == SetReceived(old(Model()), p, old(Model()).peers[p].received + {Entry(path, Remote(p))})
    {
      hide RouteTable.Valid;
      hide RouteTable.NoEmptyHop;
      hide MetalBond.AddressesValid;
      ok := peers[p].receivedRoutes.AddNextHop(path, Remote(p));
      assert Model().peers == old(Model()).peers[p := peers[p].Model()];
    }

    method RemoveFromReceived(p: PeerId, path: Path) returns (ok: bool)
      requires Valid() && p in peers
      modifies PeerAt(p).receivedRoutes
      ensures Valid()
      ensures ok <==> Entry(path, Remote(p)) in old(Model()).peers[p].received
      ensures Model() == SetReceived(old(Model()), p, old(Model()).peers[p].received - {Entry(path, Remote(p))})
    {
      hide RouteTable.Valid;
      hide RouteTable.NoEmptyHop;
      hide MetalBond.AddressesValid;
      var _, found := peers[p].receivedRoutes.RemoveNextHop(path, Remote(p));
      ok := found;
      assert Model().peers == old(Model()).peers[p := peers[p].Model()];
    }

    method AddToTable(path: Path, from: PeerId) returns (ok: bool)
      requires Valid() && path.dest.ipVersion in {IPV4, IPV6}
      modifies routeTable
      ensures Valid()
      ensures ok <==> Entry(path, Remote(from)) !in old(Model()).table
      ensures Model() == old(Model()).(table := old(Model()).table + {Entry(path, Remote(from))})
    {
      hide RouteTable.Valid;
      hide RouteTable.NoEmptyHop;
      hide MetalBond.AddressesValid;
      ok := routeTable.AddNextHop(path, Remote(from));
      assert Model().peers == old(Model()).peers;
    }

    method RemoveFromTable(path: Path, from: PeerId) returns (last: bool, ok: bool)
      requires Valid()
      modifies routeTable
      ensures Valid()
      ensures ok <==> Entry(path, Remote(from)) in old(Model()).table
      ensures Model() == old(Model()).(table := old(Model()).table - {Entry(path, Remote(from))})
      ensures ok ==> (last <==> !HasSource(Model().table, path))
    {
      hide RouteTable.Valid;
      hide RouteTable.NoEmptyHop;
      hide MetalBond.AddressesValid;
      hide HasSource;
      hide SourcesOf;
      var remaining, found := routeTable.RemoveNextHop(path, Remote(from));
      NoneLeft(routeTable.entries, path);
      last, ok := remaining == 0, found;
      assert Model().peers == old(Model()).peers;
    }

    ghost method NoteWithdrawal(path: Path, from: PeerId)
      requires Valid()
      modifies this`lastWithdrawn
      ensures Valid() && Model() == old(Model()).(lastWithdrawn := old(Model()).lastWithdrawn[path := from])
    {
      hide RouteTable.Valid;
      hide RouteTable.NoEmptyHop;
      hide MetalBond.AddressesValid;
      hide MetalBond.PeersValid;
      hide MetalBond.PeerModels;
      lastWithdrawn := lastWithdrawn[path := from];
      PeersUntouched();
    }

    method CallClient(c: Call)
      requires Valid()
      modifies this`clientCalls
      ensures Valid() && Model() == old(Model()).(calls := old(Model()).calls + [c])
    {
      hide RouteTable.Valid;
      hide RouteTable.NoEmptyHop;
      hide MetalBond.AddressesValid;
      hide MetalBond.PeersValid;
      hide MetalBond.PeerModels;
      clientCalls := clientCalls + [c];
      PeersUntouched();
    }

    method WriteState(p: PeerId, state: ConnState)
      requires Valid() && p in peers
      modifies PeerAt(p)`state
      ensures Valid() && Model() == WithPeer(old(Model()), p, old(Model()).peers[p].(state := state))
      ensures peers[p].state == state
    {
      hide MetalBond.Valid;
      hide MetalBond.Model;
      ModelBasics();
      peers[p].state := state;
      OnlyPeerWritten(p);
    }

    method WriteHello(p: PeerId, isServer: bool, interval: nat)
      requires Valid() && p in peers
      modifies PeerAt(p)`isServer, PeerAt(p)`keepaliveInterval
      ensures Valid() && Model() == WithPeer(old(Model()), p, old(Model()).peers[p].(isServer := isServer, interval := interval))
      ensures peers[p].keepaliveInterval == interval && peers[p].isServer == isServer
    {
      hide MetalBond.Valid;
      hide MetalBond.Model;
      ModelBasics();
      peers[p].isServer, peers[p].keepaliveInterval := isServer, interval;
      OnlyPeerWritten(p);
    }

    method WriteSubscribedVNIs(p: PeerId, vnis: set<VNI>)
      requires Valid() && p in peers
      modifies PeerAt(p)`subscribedVNIs
      ensures Valid() && Model() == WithPeer(old(Model()), p, old(Model()).peers[p].(subscribedVNIs := vnis))
    {
      hide MetalBond.Valid;
      hide MetalBond.Model;
      ModelBasics();
      peers[p].subscribedVNIs := vnis;
      OnlyPeerWritten(p);
    }

    ghost method NoteSince(p: PeerId, vni: VNI)
      requires Valid() && p in peers
      modifies PeerAt(p)`since
      ensures Valid() && Model() == WithPeer(old(Model()), p, old(Model()).peers[p].(since := old(Model()).peers[p].since[vni := |old(Model()).peers[p].sent|]))
    {
      hide MetalBond.Valid;
      hide MetalBond.Model;
      ModelBasics();
      peers[p].since := peers[p].since[vni := |peers[p].txChan|];
      OnlyPeerWritten(p);
    }

    method WriteMySubscriptions(vnis: set<VNI>)
      requires Valid()
      modifies this`mySubscriptions
      ensures mySubscriptions == vnis
      ensures Valid() && Model() == old(Model()).(mySubs := vnis)
    {
      hide RouteTable.Valid;
      hide RouteTable.NoEmptyHop;
      hide MetalBond.AddressesValid;
      hide MetalBond.PeersValid;
      hide MetalBond.PeerModels;
      mySubscriptions := vnis;
      PeersUntouched();
    }

    method LockSubscribers()
      requires Valid()
      modifies this`subscribersLocked
      ensures Valid() && Model() == old(Model()).(locked := true)
    {
      hide RouteTable.Valid;
      hide RouteTable.NoEmptyHop;
      hide MetalBond.AddressesValid;
      hide MetalBond.PeersValid;
      hide MetalBond.PeerModels;
      subscribersLocked := true;
      PeersUntouched();
    }

    method InsertSubscriber(vni: VNI, p: PeerId)
      requires Valid() && p in peers
      modifies this`subscribers
      ensures Valid() && Model() == old(Model()).(subs := old(Model()).subs + {(vni, p)})
    {
      hide RouteTable.Valid;
      hide RouteTable.NoEmptyHop;
      hide MetalBond.AddressesValid;
      hide MetalBond.PeersValid;
      hide MetalBond.PeerModels;
      subscribers := subscribers[vni := (if vni in subscribers then subscribers[vni] else {}) + {p}];
      PeersUntouched();
    }

    method DeleteSubscriber(vni: VNI, p: PeerId)
      requires Valid() && vni in subscribers
      modifies this`subscribers
      ensures Valid() && Model() == old(Model()).(subs := old(Model()).subs - {(vni, p)})
    {
      hide RouteTable.Valid;
      hide RouteTable.NoEmptyHop;
      hide MetalBond.AddressesValid;
      hide MetalBond.PeersValid;
      hide MetalBond.PeerModels;
      subscribers := subscribers[vni := subscribers[vni] - {p}];
      PeersUntouched();
    }

    method DeleteMember(addr: string)
      requires Valid() && addr in registered
      modifies this`registered
      ensures registered == old(registered) - {addr}
      ensures Valid() && Model() == old(Model()).(members := old(Model()).members - {old(registered[addr])})
    {
      hide RouteTable.Valid;
      hide RouteTable.NoEmptyHop;
      hide MetalBond.PeersValid;
      hide MetalBond.PeerModels;
      ValuesWithout(registered, addr);
      registered := registered - {addr};
      PeersUntouched();
    }

    method AddAnnouncement(path: Path) returns (ok: bool)
      requires Valid()
      modifies myAnnouncements
      ensures Valid()
      ensures ok <==> path !in old(Model()).announced
      ensures !ok ==> Model() == old(Model())
      ensures ok ==> Model() == old(Model()).(announced := old(Model()).announced + {path}, announcedHops := old(Model()).announcedHops + {path})
    {
      hide RouteTable.Valid;
      hide RouteTable.NoEmptyHop;
      hide MetalBond.AddressesValid;
      ghost var was := myAnnouncements.entries;
      ok := myAnnouncements.AddNextHop(path, Local);
      assert Model().peers == old(Model()).peers;
      LocalPaths(was, path);
    }

    method RemoveAnnouncement(path: Path) returns (remaining: nat, ok: bool)
      requires Valid()
      modifies myAnnouncements
      ensures Valid()
      ensures ok <==> path in old(Model()).announced
      ensures ok ==> remaining == 0
      ensures !ok ==> Model() == old(Model())
      ensures ok ==> Model() == old(Model()).(announced := old(Model()).announced - {path}, announcedHops := old(Model()).announcedHops - {path})
    {
      hide RouteTable.Valid;
      hide RouteTable.NoEmptyHop;
      hide MetalBond.AddressesValid;
      ghost var was := myAnnouncements.entries;
      remaining, ok := myAnnouncements.RemoveNextHop(path, Local);
      assert Model().peers == old(Model()).peers;
      LocalPaths(was, path);
    }

    /** The query leaves its hop key behind. */
    method IsRouteAnnounced(path: Path) returns (r: bool, ghost e: Event)
      requires Valid()
      modifies myAnnouncements
      ensures r <==> path in old(Model()).announced
      ensures e == EvProbe(path)
      ensures Valid() && Enabled(old(Model()), e) && Model() == Step(old(Model()), e)
    {
      hide RouteTable.Valid;
      hide RouteTable.NoEmptyHop;
      hide MetalBond.AddressesValid;
      e := EvProbe(path);
      ghost var was := myAnnouncements.entries;
      r := myAnnouncements.NextHopExists(path, Local);
      assert Model().peers == old(Model()).peers;
      LocalPaths(was, path);
    }

    /** SendUpdate on a peer, and Subscribe on a peer */
    method SendEstablishedMessage(p: PeerId, m: Message) returns (ok: bool)
      requires Valid() && p in peers
      modifies PeerAt(p)`txChan
      ensures Valid() && Model() == SendEstablished(old(Model()), p, m)
      ensures ok <==> Accepts(old(Model()).peers[p], m)
    {
      hide MetalBond.Valid;
      ModelBasics();
      ok := !(m.Subscribe? && peers[p].direction.Incoming?) && peers[p].state.Established? && Encodable(m);
      if ok {
        Send(p, m);
      }
    }

    // Distribution

    /** distributeRouteToPeers for a route received from a peer; it waits for mtxSubscribers first. */
    method DistributeFrom(action: byte, path: Path, from: PeerId) returns (blocked: bool)
      requires Valid() && from in peers
      modifies PeerObjects()`txChan
      ensures Valid() && blocked == subscribersLocked
      ensures Model() == if blocked then old(Model()) else Distribute(old(Model()), action, path, from)
    {
      hide MetalBond.Valid;
      hide MetalBond.Model;
      ModelBasics();
      if subscribersLocked {
        return true;
      }
      var subscribed := if path.vni in subscribers then subscribers[path.vni] else {};
      TargetsAre(Model(), path.vni, from, subscribed);
      DistributeTo(subscribed, Update(action, path), from);
      blocked := false;
    }

    method DistributeTo(subscribed: set<PeerId>, m: Message, from: PeerId)
      requires Valid() && from in peers && subscribed <= peers.Keys && Model().peers.Keys == peers.Keys
      modifies PeerObjects()`txChan
      ensures Valid() && Model() == Deliver(old(Model()), m, Passing(old(Model()), from, subscribed))
    {
      hide MetalBond.Valid;
      hide MetalBond.Model;
      ghost var n := Model();
      ghost var done: set<PeerId> := {};
      DeliverNone(n, m);
      var todo := subscribed;
      while todo != {}
        invariant Valid() && todo <= subscribed
        invariant Model() == Deliver(n, m, done)
        invariant done == Passing(n, from, subscribed - todo)
        decreases todo
      {
        var q :| q in todo;
        VisitOne(subscribed, todo, q);
        PassingOneMore(n, from, subscribed - todo, q);
        assert subscribed - (todo - {q}) == (subscribed - todo) + {q};
        todo := todo - {q};
        done := DistributeOne(q, m, from, n, done);
      }
      assert subscribed - todo == subscribed;
    }

    /** The body of the loop: the peer the route came from and server-to-server traffic are skipped. */
    method DistributeOne(q: PeerId, m: Message, from: PeerId, ghost n: Node, ghost done: set<PeerId>)
      returns (ghost now: set<PeerId>)
      requires Valid() && from in peers && q in peers
      requires Model() == Deliver(n, m, done) && n.peers.Keys == peers.Keys && q !in done
      modifies PeerAt(q)`txChan
      ensures Valid() && Model() == Deliver(n, m, now)
      ensures now == if Passes(n, from, q) then done + {q} else done
    {
      hide MetalBond.Valid;
      now := done;
      ModelBasics();
      SkipsAgree(n, m, done, from, q);
      if q != from && !(peers[from].isServer && peers[q].isServer) {
        DeliverOneMore(n, m, done, q);
        var _ := SendEstablishedMessage(q, m);
        now := done + {q};
      }
    }

    /** The loops over the peers map that stop at the first peer that fails. */
    method SendToAll(m: Message) returns (ok: bool, ghost order: seq<PeerId>)
      requires Valid()
      modifies PeerObjects()`txChan
      ensures Valid() && Enumerates(order, Members()) && (forall p :: p in order ==> p in old(Model()).peers)
      ensures Model() == SendToMembers(old(Model()), m, order)
      ensures ok <==> Reached(old(Model()), m, order) == |order|
    {
      hide MetalBond.Valid;
      hide MetalBond.Model;
      hide Deliver;
      hide Tried;
      hide ToSet;
      hide SendToMembers;
      ModelBasics();
      ghost var n := Model();
      order := Untried(n, m, Members());
      var todo := Members();
      while todo != {}
        invariant Valid() && todo <= Members()
        invariant Tried(n, m, order, Members(), todo)
        invariant Model() == Deliver(n, m, ToSet(order))
        decreases todo
      {
        var p :| p in todo;
        TriesNext(n, m, order, Members(), todo, p);
        var sent := SendEstablishedMessage(p, m);
        if !sent {
          order := GivesUp(n, m, order, Members(), todo, p);
          return false, order;
        }
        todo := todo - {p};
        order := order + [p];
      }
      TriedAll(n, m, order, Members());
      ok := true;
    }

    // Received routes

    method AnnouncesItself(vni: VNI, dest: Destination) returns (r: bool)
      requires Valid()
      ensures Valid() && Model() == old(Model())
      ensures r <==> AnnouncedAt(Model(), vni, dest)
    {
      hide RouteTable.Valid;
      hide RouteTable.NoEmptyHop;
      hide MetalBond.AddressesValid;
      var nhs := myAnnouncements.GetNextHopsByDestination(vni, dest);
      AnnouncedHops(Model(), vni, dest, nhs);
      r := |nhs| > 0;
    }

    /** addReceivedRoute; `blocked` says that the call waits for mtxSubscribers for good. */
    method AddReceivedRoute(from: PeerId, path: Path) returns (ok: bool, blocked: bool)
      requires Valid() && from in peers && path.dest.ipVersion in {IPV4, IPV6}
      modifies this`clientCalls, routeTable, PeerObjects()`txChan
      ensures Valid()
      ensures blocked <==> subscribersLocked && Stores(old(Model()), from, path)
      ensures !blocked ==> Model() == AddReceived(old(Model()), from, path)
      ensures blocked ==> Model() == old(Model()).(table := old(Model()).table + {Entry(path, Remote(from))})
      ensures ok <==> Stores(old(Model()), from, path) || SkipsOwn(old(Model()), path)
    {
      hide MetalBond.Valid;
      hide MetalBond.Model;
      PeerBasics(from);
      ghost var n := Model();
      blocked := false;
      if path.hop.kind == STANDARD {
        var announced := AnnouncesItself(path.vni, path.dest);
        if announced {
          return true, false;
        }
      }
      ok := AddToTable(path, from);
      if !ok {
        assert n.table + {Entry(path, Remote(from))} == n.table;
        return;
      }
      blocked := DistributeFrom(ADD, path, from);
      if blocked {
        return;
      }
      CallClient(AddRoute(path));
    }

    /** removeReceivedRoute */
    method RemoveReceivedRoute(from: PeerId, path: Path) returns (ok: bool, blocked: bool)
      requires Valid() && from in peers
      modifies this`clientCalls, this`lastWithdrawn, routeTable, PeerObjects()`txChan
      ensures Valid()
      ensures blocked <==> subscribersLocked && OnlySource(old(Model()).table, from, path)
      ensures !blocked ==> Model() == RemoveReceived(old(Model()), from, path)
      ensures blocked ==> Model() == HaltedRemoval(old(Model()), from, path)
      ensures ok <==> Entry(path, Remote(from)) in old(Model()).table
    {
      hide MetalBond.Valid;
      hide MetalBond.Model;
      PeerBasics(from);
      ghost var n := Model();
      blocked := false;
      var last, found := RemoveFromTable(path, from);
      if !found {
        assert n.table - {Entry(path, Remote(from))} == n.table;
        return false, false;
      }
      NoteWithdrawal(path, from);
      ok := true;
      if last {
        blocked := DistributeFrom(REMOVE, path, from);
        if blocked {
          return;
        }
      }
      CallClient(RemoveRoute(path));
    }

    /** A route of `p` leaves its table and the node's. */
    method Drop(p: PeerId, path: Path) returns (found: bool, blocked: bool)
      requires Valid() && p in peers
      modifies this`clientCalls, this`lastWithdrawn, PeerObjects()`txChan, TableObjects()
      ensures Valid()
      ensures blocked <==> subscribersLocked && OnlySource(old(Model()).table, p, path)
      ensures !blocked ==> Model() == DropRoute(old(Model()), p, path)
      ensures blocked ==> Model() == HaltedDrop(old(Model()), p, path)
      ensures found <==> Entry(path, Remote(p)) in old(Model()).peers[p].received
    {
      hide MetalBond.Valid;
      hide MetalBond.Model;
      hide OnlySource;
      PeerBasics(p);
      found := RemoveFromReceived(p, path);
      var _, stuck := RemoveReceivedRoute(p, path);
      blocked := stuck;
    }

    method ProcessRxUpdate(p: PeerId, action: byte, path: Path) returns (blocked: bool, ghost e: Event)
      requires Valid() && p in peers && path.dest.ipVersion in {IPV4, IPV6}
      modifies this`clientCalls, this`lastWithdrawn, PeerObjects()`txChan, TableObjects()
      ensures e == EvUpdate(p, action, path)
      ensures Valid() && Outcome(old(Model()), e, blocked, Model())
      ensures blocked ==> subscribersLocked
    {
      hide MetalBond.Valid;
      hide MetalBond.Model;
      hide OnlySource;
      hide AnnouncedAt;
      hide Outcome;
      PeerBasics(p);
      ghost var n := Model();
      e := EvUpdate(p, action, path);
      UpdateOutcomes(n, p, action, path);
      blocked := false;
      if action == ADD {
        var added := AddToReceived(p, path);
        if added {
          var _, stuck := AddReceivedRoute(p, path);
          blocked := stuck;
        }
      } else if action == REMOVE {
        var removed := RemoveFromReceived(p, path);
        if removed {
          var _, stuck := RemoveReceivedRoute(p, path);
          blocked := stuck;
        }
      }
    }

    // Local operations

    /** MetalBond.Subscribe */
    method Subscribe(vni: VNI) returns (ok: bool, ghost e: Event)
      requires Valid()
      modifies this`mySubscriptions, PeerObjects()`txChan
      ensures e.EvLocalSubscribe? && e.vni == vni
      ensures Valid() && Enabled(old(Model()), e) && Model() == Step(old(Model()), e)
      ensures vni !in old(Model()).mySubs ==> Sending.TellsMembers(old(Model()), Model(), Message.Subscribe(vni), e.order)
      ensures ok <==> vni !in old(Model()).mySubs && AllTake(old(Model()), Message.Subscribe(vni))
    {
      hide MetalBond.PeerObjects;
      hide Sending.TellsMembers;
      hide MetalBond.Valid;
      hide MetalBond.Model;
      ModelBasics();
      hide Enabled;
      hide Step;
      ghost var n := Model();
      if vni in mySubscriptions {
        ghost var order := AnOrder(Members());
        LocalSubscribeIsEvent(n, vni, order);
        return false, EvLocalSubscribe(vni, order);
      }
      WriteMySubscriptions(mySubscriptions + {vni});
      ghost var n1 := Model();
      ghost var reached;
      ok, reached := SendToAll(Message.Subscribe(vni));
      LocalSubscribeIsEvent(n, vni, reached);
      Sending.SubscriptionTellsMembers(n, vni, reached);
      ReachedByPeers(n, n1, Message.Subscribe(vni), reached);
      e := EvLocalSubscribe(vni, reached);
    }

    /** distributeRouteToPeers for a route of the node itself */
    method DistributeOwn(action: byte, path: Path) returns (blocked: bool, ok: bool, ghost order: seq<PeerId>)
      requires Valid()
      modifies PeerObjects()`txChan
      ensures Valid() && blocked == subscribersLocked
      ensures Enumerates(order, Members()) && (forall p :: p in order ==> p in old(Model()).peers)
      ensures blocked ==> Model() == old(Model())
      ensures !blocked ==> Model() == SendToMembers(old(Model()), Update(action, path), order)
      ensures !blocked ==> (ok <==> Reached(old(Model()), Update(action, path), order) == |order|)
    {
      hide MetalBond.PeerObjects;
      hide MetalBond.Valid;
      hide MetalBond.Model;
      ModelBasics();
      if subscribersLocked {
        order := AnOrder(Members());
        return true, false, order;
      }
      blocked := false;
      ok, order := SendToAll(Update(action, path));
    }

    /** MetalBond.AnnounceRoute */
    method AnnounceRoute(path: Path) returns (blocked: bool, ok: bool, ghost e: Event)
      requires Valid()
      modifies myAnnouncements, PeerObjects()`txChan
      ensures e.EvAnnounce? && e.path == path
      ensures Valid() && Outcome(old(Model()), e, blocked, Model())
      ensures !blocked && path !in old(Model()).announced && path.dest.ipVersion in {IPV4, IPV6} ==>
        Sending.TellsMembers(old(Model()), Model(), Update(ADD, path), e.order)
      ensures !blocked ==>
        (ok <==> path !in old(Model()).announced && AllTake(old(Model()), Update(ADD, path)))
    {
      hide MetalBond.PeerObjects;
      hide Sending.TellsMembers;
      hide MetalBond.Valid;
      hide MetalBond.Model;
      hide Outcome;
      ModelBasics();
      ghost var n := Model();
      var added := AddAnnouncement(path);
      if !added {
        ghost var order := AnOrder(Members());
        AnnounceOutcomes(n, path, order);
        return false, false, EvAnnounce(path, order);
      }
      ghost var n1, order := Model(), [];
      blocked, ok, order := DistributeOwn(ADD, path);
      AnnounceOutcomes(n, path, order);
      if !blocked && path.dest.ipVersion in {IPV4, IPV6} {
        TellsAnnouncement(n, path, order, Model());
      }
      ReachedByPeers(n, n1, Update(ADD, path), order);
      e := EvAnnounce(path, order);
    }

    /** MetalBond.WithdrawRoute */
    method WithdrawRoute(path: Path) returns (blocked: bool, ok: bool, ghost e: Event)
      requires Valid()
      modifies myAnnouncements, PeerObjects()`txChan
      ensures e.EvWithdraw? && e.path == path
      ensures Valid() && Outcome(old(Model()), e, blocked, Model())
      ensures !blocked && path in old(Model()).announced && path.dest.ipVersion in {IPV4, IPV6} ==>
        Sending.TellsMembers(old(Model()), Model(), Update(REMOVE, path), e.order)
      ensures !blocked ==>
        (ok <==> path in old(Model()).announced && AllTake(old(Model()), Update(REMOVE, path)))
    {
      hide MetalBond.PeerObjects;
      hide Sending.TellsMembers;
      hide MetalBond.Valid;
      hide MetalBond.Model;
      hide Outcome;
      ModelBasics();
      ghost var n := Model();
      var remaining, removed := RemoveAnnouncement(path);
      if !removed {
        ghost var order := AnOrder(Members());
        WithdrawOutcomes(n, path, order);
        return false, false, EvWithdraw(path, order);
      }
      // the node itself was the only source
      assert remaining == 0;
      ghost var n1, order := Model(), [];
      blocked, ok, order := DistributeOwn(REMOVE, path);
      WithdrawOutcomes(n, path, order);
      if !blocked && path.dest.ipVersion in {IPV4, IPV6} {
        TellsWithdrawal(n, path, order, Model());
      }
      ReachedByPeers(n, n1, Update(REMOVE, path), order);
      e := EvWithdraw(path, order);
    }

    // Leaving a VNI

    method ReceivedListing(p: PeerId, vni: VNI) returns (listing: Listing)
      requires Valid() && p in peers
      ensures Valid() && Model() == old(Model())
      ensures ListingOf(listing, vni, ReceivedAt(Model(), p, vni))
    {
      hide RouteTable.Valid;
      hide RouteTable.NoEmptyHop;
      hide MetalBond.AddressesValid;
      peers[p].receivedRoutes.HopsAreTuplePaths();
      listing := peers[p].receivedRoutes.GetDestinationsByVNI(vni);
      ListingIs(listing, vni, ReceivedAt(Model(), p, vni));
    }

    /** The inner loop of removeSubscriber and of cleanup, whose error branch is never taken. */
    method PurgeHops(p: PeerId, vni: VNI, dest: Destination, nhs: seq<NextHop>,
                     ghost n: Node, ghost before: seq<Path>, ghost s: set<Path>)
      returns (blocked: bool, ghost order: seq<Path>)
      requires Valid() && p in peers
      requires Distinct(nhs) && Enumerates(before, s) && (forall h :: Path(vni, dest, h) !in s)
      requires p in n.peers && Purging(n, p, before, false, Model())
      requires forall h :: h in nhs ==> Entry(Path(vni, dest, h), Remote(p)) in n.peers[p].received
      modifies this`clientCalls, this`lastWithdrawn, PeerObjects()`txChan, TableObjects()
      ensures Valid() && Purging(n, p, order, blocked, Model()) && (blocked ==> subscribersLocked)
      ensures Visits(order, s + HopPaths(vni, dest, nhs), blocked)
    {
      hide MetalBond.PeerObjects;
      hide MetalBond.TableObjects;
      hide MetalBond.ReceivedTables;
      hide MetalBond.Valid;
      hide MetalBond.Model;
      hide Enumerates;
      hide Purging;
      hide HopPaths;
      blocked, order := false, before;
      NoHopsListed(s, vni, dest, nhs);
      for i := 0 to |nhs|
        invariant Valid() && Purging(n, p, order, false, Model())
        invariant Enumerates(order, s + HopPaths(vni, dest, nhs[..i]))
      {
        PeerBasics(p);
        ghost var x := Path(vni, dest, nhs[i]);
        NextHopListed(order, s, vni, dest, nhs, i);
        DropsNext(n, p, order, Model(), x);
        var found, stuck := Drop(p, Path(vni, dest, nhs[i]));
        assert found;
        order := order + [x];
        if stuck {
          VisitsSome(order, s, vni, dest, nhs, i);
          return true, order;
        }
      }
      VisitsAll(order, s + HopPaths(vni, dest, nhs));
    }

    /** The middle loop. */
    method PurgeVNI(p: PeerId, vni: VNI, ghost n: Node, ghost before: seq<Path>, ghost s: set<Path>)
      returns (blocked: bool, ghost order: seq<Path>)
      requires Valid() && p in peers
      requires Enumerates(before, s) && (forall x :: x in s ==> x.vni != vni)
      requires p in n.peers && Purging(n, p, before, false, Model())
      requires forall e :: e in n.peers[p].received ==> e.source == Remote(p)
      modifies this`clientCalls, this`lastWithdrawn, PeerObjects()`txChan, TableObjects()
      ensures Valid() && Purging(n, p, order, blocked, Model()) && (blocked ==> subscribersLocked)
      ensures Visits(order, s + ReceivedAt(n, p, vni), blocked)
    {
      hide MetalBond.PeerObjects;
      hide MetalBond.TableObjects;
      hide MetalBond.ReceivedTables;
      hide MetalBond.Valid;
      hide MetalBond.Model;
      hide Enumerates;
      hide Purging;
      hide Listed;
      hide ListingOf;
      hide ReceivedAt;
      hide HopPaths;
      hide Visits;
      PeerBasics(p);
      var listing := ReceivedListing(p, vni);
      PurgeReachesListing(n, p, before, Model(), s, vni, listing);
      blocked, order := false, before;
      var todo := listing.Keys;
      while todo != {}
        invariant Valid() && Purging(n, p, order, false, Model())
        invariant todo <= listing.Keys
        invariant Enumerates(order, s + Listed(vni, listing, listing.Keys - todo))
        decreases todo
      {
        var d :| d in todo;
        VisitOne(listing.Keys, todo, d);
        NextDestinationListed(vni, listing, s, listing.Keys - todo, d);
        blocked, order := PurgeHops(p, vni, d, listing[d], n, order, s + Listed(vni, listing, listing.Keys - todo));
        VisitsListed(order, s, vni, listing, listing.Keys - (todo - {d}), blocked);
        if blocked {
          return;
        }
        todo := todo - {d};
      }
      assert listing.Keys - todo == listing.Keys;
      VisitsAll(order, s + Listed(vni, listing, listing.Keys));
    }

    /** removeSubscriber */
    method RemoveSubscriber(p: PeerId, vni: VNI) returns (blocked: bool, ghost order: seq<Path>)
      requires Valid() && p in peers
      modifies this`clientCalls, this`lastWithdrawn, this`subscribers, PeerObjects()`txChan, TableObjects()
      ensures Valid() && blocked == subscribersLocked && Enumerates(order, ReceivedAt(old(Model()), p, vni))
      ensures Model() == if blocked then old(Model()) else Engine.RemoveSubscriber(old(Model()), p, vni, order)
    {
      hide MetalBond.PeerObjects;
      hide MetalBond.TableObjects;
      hide MetalBond.ReceivedTables;
      hide MetalBond.Valid;
      hide MetalBond.Model;
      hide Enumerates;
      PeerBasics(p);
      SubscriptionBasics(vni, p);
      ghost var n := Model();
      blocked := subscribersLocked;
      if subscribersLocked || vni !in subscribers || p !in subscribers[vni] {
        order := AnOrder(ReceivedAt(n, p, vni));
        return;
      }
      PurgingNothing(n, p);
      var _, visited := PurgeVNI(p, vni, n, [], {});
      order := visited;
      assert {} + ReceivedAt(n, p, vni) == ReceivedAt(n, p, vni);
      DeleteSubscriber(vni, p);
    }

    method ProcessRxUnsubscribe(p: PeerId, vni: VNI) returns (blocked: bool, ghost e: Event)
      requires Valid() && p in peers
      modifies this`clientCalls, this`lastWithdrawn, this`subscribers, PeerObjects()`txChan, TableObjects(), PeerAt(p)`subscribedVNIs
      ensures e.EvUnsubscribe? && e.p == p && e.vni == vni
      ensures Valid() && Outcome(old(Model()), e, blocked, Model())
      ensures blocked ==> subscribersLocked
    {
      hide MetalBond.TableObjects;
      hide MetalBond.ReceivedTables;
      hide MetalBond.Valid;
      hide MetalBond.Model;
      hide Enumerates;
      hide ReceivedAt;
      hide Engine.RemoveSubscriber;
      hide Outcome;
      PeerBasics(p);
      ghost var n := Model();
      ghost var order;
      blocked, order := RemoveSubscriber(p, vni);
      e := EvUnsubscribe(p, vni, order);
      UnsubscribeOutcomes(n, p, vni, order);
      if !blocked {
        PeerBasics(p);
        WriteSubscribedVNIs(p, peers[p].subscribedVNIs - {vni});
      }
    }

    // A peer subscribes

    method SnapshotListing(vni: VNI) returns (listing: map<Destination, SourceListing>)
      requires Valid()
      ensures Valid() && Model() == old(Model())
      ensures DestinationEntries(vni, listing, listing.Keys) == SnapshotAt(Model(), vni)
      ensures forall d, h :: d in listing && h in listing[d] ==> Distinct(listing[d][h])
      ensures forall d, h, s :: d in listing && h in listing[d] && s in listing[d][h] ==> d.ipVersion in {IPV4, IPV6}
    {
      hide RouteTable.Valid;
      hide RouteTable.NoEmptyHop;
      hide MetalBond.AddressesValid;
      listing := routeTable.GetDestinationsByVNIWithPeer(vni);
      SnapshotListingIs(listing, vni, SnapshotAt(Model(), vni));
      assert forall d, h, s :: d in listing && h in listing[d] && s in listing[d][h] ==> Entry(Path(vni, d, h), s) in routeTable.entries;
    }

    /** The inner loop of addSubscriber; the branch that resets the peer is never taken. */
    method SnapshotSources(p: PeerId, path: Path, sources: seq<Source>, ghost n: Node, ghost before: seq<Entry>, ghost s: set<Entry>)
      returns (ghost order: seq<Entry>)
      requires Valid() && p in peers && p in n.peers && n.peers[p].state.Established?
      requires sources != [] ==> path.dest.ipVersion in {IPV4, IPV6}
      requires Distinct(sources) && Enumerates(before, s) && (forall x :: Entry(path, x) !in s)
      requires Model() == SendSnapshot(n, p, before)
      modifies PeerAt(p)`txChan
      ensures Valid() && Model() == SendSnapshot(n, p, order)
      ensures Enumerates(order, s + SourceEntries(path, sources))
    {
      hide MetalBond.Valid;
      hide MetalBond.Model;
      hide Enumerates;
      order := before;
      NoSourcesListed(s, path, sources);
      for i := 0 to |sources|
        invariant Valid() && Model() == SendSnapshot(n, p, order)
        invariant Enumerates(order, s + SourceEntries(path, sources[..i]))
      {
        ghost var x := Entry(path, sources[i]);
        NextSourceListed(order, s, path, sources, i);
        SnapshotOneMore(n, p, order, x);
        if !(sources[i] == Remote(p) && path.hop.kind == NAT) {
          var sent := SendEstablishedMessage(p, Update(ADD, path));
          assert sent;
        }
        order := order + [x];
      }
    }

    method SnapshotHops(p: PeerId, vni: VNI, dest: Destination, hops: SourceListing, ghost n: Node, ghost before: seq<Entry>, ghost s: set<Entry>)
      returns (ghost order: seq<Entry>)
      requires Valid() && p in peers && p in n.peers && n.peers[p].state.Established?
      requires forall h :: h in hops ==> Distinct(hops[h]) && (hops[h] != [] ==> dest.ipVersion in {IPV4, IPV6})
      requires Enumerates(before, s) && (forall h, x :: Entry(Path(vni, dest, h), x) !in s)
      requires Model() == SendSnapshot(n, p, before)
      modifies PeerAt(p)`txChan
      ensures Valid() && Model() == SendSnapshot(n, p, order)
      ensures Enumerates(order, s + HopEntries(vni, dest, hops, hops.Keys))
    {
      hide MetalBond.Valid;
      hide MetalBond.Model;
      hide Enumerates;
      order := before;
      var todo := hops.Keys;
      assert s + HopEntries(vni, dest, hops, hops.Keys - todo) == s;
      while todo != {}
        invariant Valid() && Model() == SendSnapshot(n, p, order)
        invariant todo <= hops.Keys
        invariant Enumerates(order, s + HopEntries(vni, dest, hops, hops.Keys - todo))
        decreases todo
      {
        var h :| h in todo;
        VisitOne(hops.Keys, todo, h);
        NextHopEntries(vni, dest, hops, s, hops.Keys - todo, h);
        order := SnapshotSources(p, Path(vni, dest, h), hops[h], n, order, s + HopEntries(vni, dest, hops, hops.Keys - todo));
        todo := todo - {h};
      }
      assert hops.Keys - todo == hops.Keys;
    }

    method SendTable(p: PeerId, vni: VNI) returns (ghost order: seq<Entry>)
      requires Valid() && p in peers && peers[p].state.Established?
      modifies PeerAt(p)`txChan
      ensures Valid() && Model() == SendSnapshot(old(Model()), p, order)
      ensures Enumerates(order, SnapshotAt(old(Model()), vni))
    {
      hide MetalBond.Valid;
      hide MetalBond.Model;
      hide Enumerates;
      hide DestinationEntries;
      hide HopEntries;
      ModelBasics();
      ghost var n := Model();
      var listing := SnapshotListing(vni);
      order := [];
      EnumeratesEmpty<Entry>();
      var todo := listing.Keys;
      NothingListed(vni, listing, listing.Keys - todo);
      while todo != {}
        invariant Valid() && Model() == SendSnapshot(n, p, order)
        invariant todo <= listing.Keys
        invariant Enumerates(order, DestinationEntries(vni, listing, listing.Keys - todo))
        decreases todo
      {
        var d :| d in todo;
        VisitOne(listing.Keys, todo, d);
        NextDestinationEntries(vni, listing, listing.Keys - todo, d);
        FirstSources(listing[d]);
        order := SnapshotHops(p, vni, d, listing[d], n, order, DestinationEntries(vni, listing, listing.Keys - todo));
        todo := todo - {d};
      }
      assert listing.Keys - todo == listing.Keys;
    }

    /**
     * processRxSubscribe and addSubscriber on an ESTABLISHED peer, or for a VNI
     * the peer is subscribed to. A duplicate returns with the lock held.
     */
    method SubscribeReady(p: PeerId, vni: VNI) returns (blocked: bool, ok: bool, ghost e: Event)
      requires Valid() && p in peers
      requires !subscribersLocked ==> peers[p].state.Established? || (vni in subscribers && p in subscribers[vni])
      modifies this`subscribers, this`subscribersLocked, PeerAt(p)`txChan, PeerAt(p)`subscribedVNIs, PeerAt(p)`since
      ensures e.EvSubscribe? && e.p == p && e.vni == vni
      ensures Valid() && Outcome(old(Model()), e, blocked, Model())
      ensures blocked <==> old(subscribersLocked)
      ensures !blocked ==> (ok <==> (vni, p) !in old(Model()).subs)
      ensures subscribersLocked == (blocked || !ok)
    {
      hide MetalBond.Valid;
      hide MetalBond.Model;
      hide Enumerates;
      hide Outcome;
      PeerBasics(p);
      SubscriptionBasics(vni, p);
      ghost var n := Model();
      blocked, ok := subscribersLocked, false;
      WriteSubscribedVNIs(p, peers[p].subscribedVNIs + {vni});
      ghost var snapshot := AnOrder(SnapshotAt(n, vni));
      if subscribersLocked || (vni in subscribers && p in subscribers[vni]) {
        e := EvSubscribe(p, vni, snapshot);
        SubscribeOutcomes(n, p, vni, snapshot);
        if !blocked {
          LockSubscribers();
          ModelBasics();
        }
        return;
      }
      InsertSubscriber(vni, p);
      NoteSince(p, vni);
      SubscribedOnce(n, p, vni);
      ghost var order := SendTable(p, vni);
      SubscribeOutcomes(n, p, vni, order);
      ok, e := true, EvSubscribe(p, vni, order);
    }

    /** Whether the snapshot loop of addSubscriber would send something. */
    method HasSnapshot(p: PeerId, vni: VNI) returns (any: bool)
      requires Valid()
      ensures Valid() && Model() == old(Model())
      ensures any <==> exists e :: e in SnapshotAt(Model(), vni) && !Skipped(p, e)
    {
      hide MetalBond.Valid;
      hide MetalBond.Model;
      hide SnapshotAt;
      var listing := SnapshotListing(vni);
      any := exists d | d in listing :: exists h | h in listing[d] :: exists s | s in listing[d][h] ::
               !(s == Remote(p) && h.kind == NAT);
      AnyListed(listing, vni, p, SnapshotAt(Model(), vni));
    }

    /**
     * The same on a peer that is not ESTABLISHED: it joins the subscriber set;
     * the first send of the snapshot fails and resets it, after which the
     * others fail without effect. The reset of an outgoing peer does not return.
     */
    method SubscribeEarly(p: PeerId, vni: VNI) returns (hangs: bool, ghost es: seq<Event>)
      requires Valid() && p in peers && !subscribersLocked
      requires !peers[p].state.Established? && !(vni in subscribers && p in subscribers[vni])
      modifies this`registered, this`clientCalls, this`lastWithdrawn, this`subscribers, PeerObjects()`txChan, TableObjects()
      modifies PeerObjects()`state, PeerAt(p)`subscribedVNIs, PeerAt(p)`since
      ensures Valid() && Leads(old(Model()), es, Model())
      ensures EarlyEvents(old(Model()), old(Book()), p, vni, es, hangs) && (forall e :: e in es ==> FromPeer(e))
      ensures Book() == if EarlyResets(old(Model()), p, vni) then ResetBook(old(Model()), old(Book()), p) else old(Book())
    {
      hide MetalBond.Valid;
      hide MetalBond.Model;
      hide MetalBond.TableObjects;
      hide MetalBond.ReceivedTables;
      hide Leads;
      hide SnapshotAt;
      hide ResetEvents;
      hide FromPeer;
      hide EarlyEvents;
      hide ResetBook;
      PeerBasics(p);
      SubscriptionBasics(vni, p);
      ghost var n := Model();
      WriteSubscribedVNIs(p, peers[p].subscribedVNIs + {vni});
      InsertSubscriber(vni, p);
      NoteSince(p, vni);
      SubscribedOnce(n, p, vni);
      EarlyIsEvent(n, p, vni);
      LeadsOne(n, EvSubscribeEarly(p, vni), Model());
      es := [EvSubscribeEarly(p, vni)];
      ghost var book := Book();
      EarlyFromPeer(p, vni);
      SameSnapshot(n, Model(), vni);
      var any := HasSnapshot(p, vni);
      hangs := any && !peers[p].state.Closed? && peers[p].direction.Outgoing?;
      EarlyAlone(n, book, p, vni);
      if any && !peers[p].state.Closed? {
        ghost var n1 := Model();
        var _, more := Reset(p);
        SameReset(n, n1, book, p, more, false);
        EarlyDone(n, book, p, vni, more);
        LeadsIs(n1, more, Model());
        LeadsOn(n, es, n1, more, Model());
        es := es + more;
      }
    }

    method ProcessRxSubscribe(p: PeerId, vni: VNI) returns (blocked: bool, hangs: bool, ghost es: seq<Event>)
      requires Valid() && p in peers
      modifies this`registered, this`clientCalls, this`lastWithdrawn, this`subscribers, this`subscribersLocked
      modifies PeerObjects()`txChan, TableObjects(), PeerObjects()`state, PeerAt(p)`subscribedVNIs, PeerAt(p)`since
      ensures Valid() && Ends(old(Model()), es, blocked, Model())
      ensures blocked <==> old(subscribersLocked)
      ensures es != [] && (es[0].EvSubscribe? || es[0].EvSubscribeEarly?) && es[0].p == p && es[0].vni == vni
      ensures es[0].EvSubscribe? ==> |es| == 1 && !hangs
      ensures es[0].EvSubscribeEarly? <==>
        !old(subscribersLocked) && !old(peers[p].state).Established? && (vni, p) !in old(Model()).subs
      ensures es[0].EvSubscribeEarly? ==>
        && EarlyEvents(old(Model()), old(Book()), p, vni, es, hangs)
        && Book() == if EarlyResets(old(Model()), p, vni) then ResetBook(old(Model()), old(Book()), p) else old(Book())
      ensures es[0].EvSubscribe? ==> Book() == old(Book())
      ensures forall e :: e in es ==> FromPeer(e)
    {
      hide MetalBond.Valid;
      hide MetalBond.Model;
      hide MetalBond.TableObjects;
      hide MetalBond.ReceivedTables;
      hide Ends;
      hide Leads;
      hide Outcome;
      PeerBasics(p);
      SubscriptionBasics(vni, p);
      ghost var n := Model();
      blocked, hangs := false, false;
      if subscribersLocked || peers[p].state.Established? || (vni in subscribers && p in subscribers[vni]) {
        ghost var e;
        var ok;
        blocked, ok, e := SubscribeReady(p, vni);
        EndsOne(n, e, blocked, Model());
        es := [e];
      } else {
        hangs, es := SubscribeEarly(p, vni);
        EndsWell(n, es, Model());
      }
    }

    // Connection state

    method SendMySubscriptions(p: PeerId) returns (ghost vnis: seq<VNI>)
      requires Valid() && p in peers
      modifies PeerAt(p)`txChan
      ensures Valid() && Enumerates(vnis, mySubscriptions)
      ensures Model() == SendSubscriptions(old(Model()), p, vnis)
    {
      hide MetalBond.Valid;
      hide MetalBond.Model;
      hide Enumerates;
      ModelBasics();
      ghost var n := Model();
      vnis := [];
      EnumeratesEmpty<VNI>();
      var todo := mySubscriptions;
      assert mySubscriptions - todo == {};
      while todo != {}
        invariant Valid() && Model() == SendSubscriptions(n, p, vnis)
        invariant todo <= mySubscriptions
        invariant Enumerates(vnis, mySubscriptions - todo)
        decreases todo
      {
        var v :| v in todo;
        VisitOne(mySubscriptions, todo, v);
        EnumeratesOneMore(vnis, mySubscriptions - todo, v);
        assert (vnis + [v])[..|vnis|] == vnis;
        var _ := SendEstablishedMessage(p, Message.Subscribe(v));
        vnis, todo := vnis + [v], todo - {v};
      }
      assert mySubscriptions - todo == mySubscriptions;
    }

    method AnnouncedVNIs() returns (vnis: seq<VNI>)
      requires Valid()
      ensures Valid() && Model() == old(Model())
      ensures Distinct(vnis) && (forall x :: x in Model().announcedHops ==> x.vni in vnis)
    {
      hide RouteTable.Valid;
      hide RouteTable.NoEmptyHop;
      hide MetalBond.AddressesValid;
      vnis := myAnnouncements.GetVNIs();
    }

    method AnnouncedListing(vni: VNI) returns (listing: Listing)
      requires Valid()
      ensures Valid() && Model() == old(Model())
      ensures ListingOf(listing, vni, AnnouncedIn(Model(), {vni}))
    {
      hide RouteTable.Valid;
      hide RouteTable.NoEmptyHop;
      hide MetalBond.AddressesValid;
      listing := myAnnouncements.GetDestinationsByVNI(vni);
      ListingIs(listing, vni, AnnouncedIn(Model(), {vni}));
    }

    method AnnounceHops(p: PeerId, vni: VNI, dest: Destination, nhs: seq<NextHop>, ghost n: Node, ghost before: seq<Path>, ghost s: set<Path>)
      returns (ghost order: seq<Path>)
      requires Valid() && p in peers && p in n.peers
      requires Distinct(nhs) && Enumerates(before, s) && (forall h :: Path(vni, dest, h) !in s)
      requires Model() == SendAnnouncements(n, p, before)
      modifies PeerAt(p)`txChan
      ensures Valid() && Model() == SendAnnouncements(n, p, order)
      ensures Enumerates(order, s + HopPaths(vni, dest, nhs))
    {
      hide MetalBond.Valid;
      hide MetalBond.Model;
      hide Enumerates;
      order := before;
      NoHopsListed(s, vni, dest, nhs);
      for i := 0 to |nhs|
        invariant Valid() && Model() == SendAnnouncements(n, p, order)
        invariant Enumerates(order, s + HopPaths(vni, dest, nhs[..i]))
      {
        ghost var x := Path(vni, dest, nhs[i]);
        NextHopListed(order, s, vni, dest, nhs, i);
        assert (order + [x])[..|order|] == order;
        // the action is the zero value, ADD
        var _ := SendEstablishedMessage(p, Update(ADD, Path(vni, dest, nhs[i])));
        order := order + [x];
      }
    }

    method AnnounceVNI(p: PeerId, vni: VNI, ghost n: Node, ghost before: seq<Path>, ghost s: set<Path>)
      returns (ghost order: seq<Path>)
      requires Valid() && p in peers && p in n.peers
      requires Enumerates(before, s) && (forall x :: x in s ==> x.vni != vni)
      requires Model() == SendAnnouncements(n, p, before)
      modifies PeerAt(p)`txChan
      ensures Valid() && Model() == SendAnnouncements(n, p, order)
      ensures Enumerates(order, s + AnnouncedIn(n, {vni}))
    {
      hide MetalBond.Valid;
      hide MetalBond.Model;
      hide Enumerates;
      hide Listed;
      hide HopPaths;
      hide AnnouncedIn;
      var listing := AnnouncedListing(vni);
      AnnouncingListing(n, p, before, s, vni, listing);
      order := before;
      var todo := listing.Keys;
      while todo != {}
        invariant Valid() && Model() == SendAnnouncements(n, p, order)
        invariant todo <= listing.Keys
        invariant Enumerates(order, s + Listed(vni, listing, listing.Keys - todo))
        decreases todo
      {
        var d :| d in todo;
        VisitOne(listing.Keys, todo, d);
        NextDestinationListed(vni, listing, s, listing.Keys - todo, d);
        order := AnnounceHops(p, vni, d, listing[d], n, order, s + Listed(vni, listing, listing.Keys - todo));
        todo := todo - {d};
      }
      assert listing.Keys - todo == listing.Keys;
    }

    method SendMyAnnouncements(p: PeerId) returns (ghost order: seq<Path>)
      requires Valid() && p in peers
      modifies PeerAt(p)`txChan
      ensures Valid() && Enumerates(order, old(Model()).announcedHops)
      ensures Model() == SendAnnouncements(old(Model()), p, order)
    {
      hide MetalBond.Valid;
      hide MetalBond.Model;
      hide Enumerates;
      hide AnnouncedIn;
      ModelBasics();
      ghost var n := Model();
      order := [];
      EnumeratesEmpty<Path>();
      var vnis := AnnouncedVNIs();
      AnnouncedBounds(n, vnis);
      for i := 0 to |vnis|
        invariant Valid() && Model() == SendAnnouncements(n, p, order)
        invariant Enumerates(order, AnnouncedIn(n, ToSet(vnis[..i])))
      {
        AnnouncedOneMore(n, vnis, i);
        order := AnnounceVNI(p, vnis[i], n, order, AnnouncedIn(n, ToSet(vnis[..i])));
      }
    }

    /** The loop that collects the VNIs a lost peer is subscribed to. */
    method SubscriptionsOf(p: PeerId) returns (vnis: set<VNI>)
      requires Valid()
      ensures Valid() && Model() == old(Model())
      ensures vnis == SubscribedBy(Model(), p) && vnis <= subscribers.Keys
    {
      hide RouteTable.Valid;
      hide RouteTable.NoEmptyHop;
      hide MetalBond.AddressesValid;
      hide MetalBond.PeersValid;
      hide MetalBond.PeerModels;
      vnis := {};
      var todo := subscribers.Keys;
      while todo != {}
        invariant todo <= subscribers.Keys
        invariant vnis == set v | v in subscribers && v !in todo && p in subscribers[v]
        decreases todo
      {
        var v :| v in todo;
        if p in subscribers[v] {
          vnis := vnis + {v};
        }
        todo := todo - {v};
      }
      forall v ensures v in SubscribedBy(Model(), p) <==> v in vnis {
        if v in vnis {
          assert (v, p) in Model().subs;
        }
      }
    }

    /** The part of setState for a lost connection. */
    method RemoveSubscriptions(p: PeerId) returns (blocked: bool, ghost purges: PurgeOrder)
      requires Valid() && p in peers
      modifies this`clientCalls, this`lastWithdrawn, this`subscribers, PeerObjects()`txChan, TableObjects()
      ensures Valid() && blocked == subscribersLocked
      ensures blocked ==> Model() == old(Model())
      ensures !blocked ==> PurgesAllOf(old(Model()), p, purges)
      ensures !blocked ==> Model() == Engine.RemoveSubscriptions(old(Model()), p, purges)
      ensures peers[p].txChan == old(peers[p].txChan)
    {
      hide MetalBond.PeerObjects;
      hide MetalBond.TableObjects;
      hide MetalBond.ReceivedTables;
      hide MetalBond.Valid;
      hide MetalBond.Model;
      hide Enumerates;
      hide Engine.RemoveSubscriber;
      hide ReceivedAt;
      hide Engine.RemoveSubscriptions;
      hide PurgeOrdersOk;
      hide VNIsOf;
      PeerBasics(p);
      ghost var n := Model();
      blocked, purges := subscribersLocked, [];
      if subscribersLocked {
        return;
      }
      NoPurges(n, p);
      var vnis := SubscriptionsOf(p);
      var todo := vnis;
      assert vnis - todo == {};
      while todo != {}
        invariant Valid() && todo <= vnis
        invariant Model() == Engine.RemoveSubscriptions(n, p, purges)
        invariant PurgeOrdersOk(n, p, purges) && Enumerates(VNIsOf(purges), vnis - todo)
        decreases todo
      {
        var v :| v in todo;
        VisitOne(vnis, todo, v);
        var _, order := RemoveSubscriber(p, v);
        PurgesOneMore(n, p, purges, v, order);
        EnumeratesOneMore(VNIsOf(purges), vnis - todo, v);
        purges, todo := purges + [(v, order)], todo - {v};
      }
      assert vnis - todo == vnis;
      RemovalsKeepOwnStream(n, p, purges);
      PeerBasics(p);
    }

    /** A peer that has become ESTABLISHED is told the subscriptions and the announcements. */
    method Greet(p: PeerId) returns (ghost vnis: seq<VNI>, ghost paths: seq<Path>)
      requires Valid() && p in peers
      modifies PeerAt(p)`txChan
      ensures Valid() && Enumerates(vnis, old(Model()).mySubs) && Enumerates(paths, old(Model()).announcedHops)
      ensures old(peers[p].txChan) <= peers[p].txChan
      ensures Model() == SendAnnouncements(SendSubscriptions(old(Model()), p, vnis), p, paths)
    {
      hide MetalBond.Valid;
      hide MetalBond.Model;
      hide Enumerates;
      hide SendSubscriptions;
      hide SendAnnouncements;
      ModelBasics();
      PeerBasics(p);
      ghost var n := Model();
      vnis := SendMySubscriptions(p);
      SubscriptionsOnlySend(n, p, vnis);
      ghost var n1 := Model();
      paths := SendMyAnnouncements(p);
      AnnouncementsOnlySend(n1, p, paths);
      PeerBasics(p);
    }

    /** setState, with the orders in which its loops ran. */
    method ChangeState(p: PeerId, state: ConnState)
      returns (blocked: bool, ghost vnis: seq<VNI>, ghost paths: seq<Path>, ghost purges: PurgeOrder)
      requires Valid() && p in peers
      modifies this`clientCalls, this`lastWithdrawn, this`subscribers, PeerObjects()`txChan, TableObjects(), PeerAt(p)`state
      ensures Valid() && peers[p].state == state
      ensures !state.Established? ==> peers[p].txChan == old(peers[p].txChan)
      ensures old(peers[p].txChan) <= peers[p].txChan
      ensures blocked <==> subscribersLocked && !state.Established? && state != old(peers[p].state)
      ensures blocked ==> Model() == WithPeer(old(Model()), p, old(Model()).peers[p].(state := state))
      ensures !blocked ==> CanSetState(old(Model()), p, state, vnis, paths, purges)
      ensures !blocked ==> Model() == Engine.SetState(old(Model()), p, state, vnis, paths, purges)
      ensures !state.Established? ==> vnis == [] && paths == []
    {
      hide MetalBond.Valid;
      hide MetalBond.Model;
      hide MetalBond.TableObjects;
      hide Engine.SetState;
      hide CanSetState;
      PeerBasics(p);
      ghost var n := Model();
      var was := peers[p].state;
      blocked := false;
      WriteState(p, state);
      if was == state {
        vnis, paths, purges := StayingPut(n, p);
      } else if state.Established? {
        vnis, paths := Greet(p);
        purges := [];
        Establishing(n, p, vnis, paths);
      } else {
        blocked, purges := RemoveSubscriptions(p);
        vnis, paths := [], [];
        if !blocked {
          Losing(n, p, state, purges);
        }
      }
    }

    method SetState(p: PeerId, state: ConnState) returns (blocked: bool, ghost e: Event)
      requires Valid() && p in peers
      modifies this`clientCalls, this`lastWithdrawn, this`subscribers, PeerObjects()`txChan, TableObjects(), PeerAt(p)`state
      ensures IsSet(e, p, state) && peers[p].state == state
      ensures !state.Established? ==> peers[p].txChan == old(peers[p].txChan)
      ensures old(peers[p].txChan) <= peers[p].txChan
      ensures Valid() && Outcome(old(Model()), e, blocked, Model())
      ensures blocked <==> subscribersLocked && !state.Established? && state != old(peers[p].state)
    {
      hide MetalBond.Valid;
      hide MetalBond.Model;
      hide MetalBond.PeerObjects;
      hide MetalBond.TableObjects;
      hide MetalBond.ReceivedTables;
      hide CanSetState;
      hide Engine.SetState;
      hide Outcome;
      PeerBasics(p);
      ghost var n, vnis, paths, purges := Model(), [], [], [];
      blocked, vnis, paths, purges := ChangeState(p, state);
      e := EvSetState(p, state, vnis, paths, purges);
      SetStateOutcomes(n, p, state, vnis, paths, purges);
    }

    method SendControl(p: PeerId, m: Message) returns (ghost e: Event)
      requires Valid() && p in peers && (m.Hello? || m.Keepalive?)
      modifies PeerAt(p)`txChan
      ensures Valid() && Enabled(old(Model()), e) && Model() == Step(old(Model()), e)
      ensures e == EvSendControl(p, m)
      ensures peers[p].txChan == if peers[p].state.Closed? then old(peers[p].txChan) else old(peers[p].txChan) + [m]
    {
      hide MetalBond.Valid;
      hide MetalBond.Model;
      PeerBasics(p);
      e := EvSendControl(p, m);
      if !peers[p].state.Closed? {
        Send(p, m);
      }
    }

    /**
     * processRxHello. An interval of 0 resets the connection, and on an incoming
     * peer the handler goes on all the same, so that a peer just closed and
     * forgotten ends in HELLO_SENT. On an outgoing peer the reset waits for the
     * goroutine it runs in.
     */
    method ProcessRxHello(p: PeerId, interval: nat, isServer: bool) returns (blocked: bool, hangs: bool, ghost es: seq<Event>)
      requires Valid() && p in peers
      modifies this`registered, this`clientCalls, this`lastWithdrawn, this`subscribers, PeerObjects()`txChan, TableObjects()
      modifies PeerObjects()`state, PeerAt(p)`isServer, PeerAt(p)`keepaliveInterval
      ensures Valid() && Ends(old(Model()), es, blocked, Model()) && (forall e :: e in es ==> FromPeer(e))
      ensures blocked ==> subscribersLocked
      ensures HelloEvents(old(Model()), old(Book()), p, interval, isServer, es, blocked, hangs, this.isServer)
      ensures !blocked ==> Book() == if interval < 1 then ResetBook(old(Model()), old(Book()), p) else old(Book())
      ensures interval >= 1 && !blocked ==>
        peers[p].txChan == old(peers[p].txChan) +
          if peers[p].direction.Incoming?
          then [Hello(if interval < old(peers[p].keepaliveInterval) then interval else old(peers[p].keepaliveInterval), this.isServer)]
          else []
      ensures !blocked && !hangs ==>
        && peers[p].keepaliveInterval == (if interval < old(peers[p].keepaliveInterval) then interval else old(peers[p].keepaliveInterval))
        && peers[p].isServer == isServer
        && peers[p].state == if peers[p].direction.Incoming? then HelloSent else HelloReceived
    {
      hide MetalBond.Valid;
      hide MetalBond.Model;
      hide MetalBond.TableObjects;
      hide MetalBond.ReceivedTables;
      hide Ends;
      hide Answers;
      hide ResetEvents;
      hide ResetBook;
      PeerBasics(p);
      ghost var n, book := Model(), Book();
      if interval >= 1 || peers[p].state.Closed? {
        hangs := false;
        NoReset(n, book, p);
        blocked, es := AnswerHello(p, interval, isServer);
        return;
      }
      ghost var first;
      blocked, first := Reset(p);
      hangs, es := !blocked && peers[p].direction.Outgoing?, first;
      if blocked || hangs {
        return;
      }
      ghost var mid, more := Model(), [];
      blocked, more := AnswerHello(p, interval, isServer);
      EndsAfter(n, first, mid, more, blocked, Model());
      es := first + more;
      assert es[..|first|] == first && es[|first|..] == more;
    }

    /** What follows: an incoming peer answers with its own HELLO. */
    method AnswerHello(p: PeerId, interval: nat, isServer: bool) returns (blocked: bool, ghost es: seq<Event>)
      requires Valid() && p in peers
      modifies this`clientCalls, this`lastWithdrawn, this`subscribers, PeerObjects()`txChan, TableObjects()
      modifies PeerAt(p)`state, PeerAt(p)`isServer, PeerAt(p)`keepaliveInterval
      ensures Valid() && Ends(old(Model()), es, blocked, Model()) && (forall e :: e in es ==> FromPeer(e))
      ensures blocked ==> subscribersLocked
      ensures Answers(es, blocked, p, peers[p].direction, interval, isServer, peers[p].keepaliveInterval, this.isServer)
      ensures !blocked ==> |es| == if peers[p].direction.Incoming? then 3 else 1
      ensures !blocked ==> peers[p].state == if peers[p].direction.Incoming? then HelloSent else HelloReceived
      ensures peers[p].keepaliveInterval == Min(old(peers[p].keepaliveInterval), interval) && peers[p].isServer == isServer
      ensures peers[p].txChan == old(peers[p].txChan) +
        if |es| == 3 then [Hello(if interval < old(peers[p].keepaliveInterval) then interval else old(peers[p].keepaliveInterval), this.isServer)] else []
    {
      hide MetalBond.Valid;
      hide MetalBond.Model;
      hide MetalBond.TableObjects;
      hide MetalBond.ReceivedTables;
      hide Outcome;
      hide Enabled;
      hide Step;
      hide Leads;
      hide Ends;
      ghost var n := Model();
      ghost var e;
      blocked, e := TakeHello(p, interval, isServer);
      EndsOne(n, e, blocked, Model());
      es := [e];
      if !blocked && peers[p].direction.Incoming? {
        ghost var n1 := Model();
        ghost var sent := SendControl(p, Hello(peers[p].keepaliveInterval, this.isServer));
        EndsEvent(n1, sent, Model());
        EndsAfter(n, es, n1, [sent], false, Model());
        ghost var n2, moved := Model(), sent;
        blocked, moved := SetState(p, HelloSent);
        EndsOne(n2, moved, blocked, Model());
        EndsAfter(n, es + [sent], n2, [moved], blocked, Model());
        es := es + [sent] + [moved];
      }
    }

    method TakeHello(p: PeerId, interval: nat, isServer: bool) returns (blocked: bool, ghost e: Event)
      requires Valid() && p in peers
      modifies this`clientCalls, this`lastWithdrawn, this`subscribers, PeerObjects()`txChan, TableObjects()
      modifies PeerAt(p)`state, PeerAt(p)`isServer, PeerAt(p)`keepaliveInterval
      ensures IsHello(e, p, interval, isServer)
      ensures Valid() && Outcome(old(Model()), e, blocked, Model())
      ensures blocked ==> subscribersLocked
      ensures peers[p].keepaliveInterval == Min(old(peers[p].keepaliveInterval), interval)
      ensures peers[p].state == HelloReceived && peers[p].isServer == isServer && peers[p].txChan == old(peers[p].txChan)
    {
      hide MetalBond.Valid;
      hide MetalBond.Model;
      hide MetalBond.PeerObjects;
      hide MetalBond.TableObjects;
      hide MetalBond.ReceivedTables;
      hide CanSetState;
      hide Engine.SetState;
      hide Outcome;
      PeerBasics(p);
      ghost var n := Model();
      var lower := if interval < peers[p].keepaliveInterval then interval else peers[p].keepaliveInterval;
      WriteHello(p, isServer, lower);
      ghost var vnis, paths, purges;
      blocked, vnis, paths, purges := ChangeState(p, HelloReceived);
      HelloOutcomes(n, p, interval, isServer, purges);
      e := EvHello(p, interval, isServer, purges);
    }

    /** processRxKeepalive; `reset` asks for the connection to be reset. */
    method ProcessRxKeepalive(p: PeerId) returns (reset: bool, ghost es: seq<Event>)
      requires Valid() && p in peers
      modifies this`clientCalls, this`lastWithdrawn, this`subscribers, PeerObjects()`txChan, TableObjects(), PeerAt(p)`state
      ensures Valid() && Leads(old(Model()), es, Model()) && (forall e :: e in es ==> FromPeer(e))
      ensures reset <==> Handshake.OnKeepalive(peers[p].direction, old(peers[p].state)).WrongState?
      ensures KeepaliveEvents(es, p, peers[p].direction, old(peers[p].state))
      ensures !reset <==>
        || old(peers[p].state) == Established
        || (peers[p].direction == Incoming && old(peers[p].state) == HelloSent)
        || (peers[p].direction == Outgoing && old(peers[p].state) == HelloReceived)
      ensures if reset then peers[p].state == old(peers[p].state) else peers[p].state == Established
      ensures old(peers[p].txChan) <= peers[p].txChan
      ensures reset ==> peers[p].txChan == old(peers[p].txChan)
      ensures !reset && peers[p].direction == Incoming ==>
        |old(peers[p].txChan)| < |peers[p].txChan| && peers[p].txChan[|peers[p].txChan| - 1] == Keepalive
      ensures old(peers[p].state) == Established ==>
        peers[p].txChan == old(peers[p].txChan) + if peers[p].direction == Incoming then [Keepalive] else []
    {
      hide MetalBond.Valid;
      hide MetalBond.Model;
      hide MetalBond.TableObjects;
      hide MetalBond.ReceivedTables;
      hide Enabled;
      hide Step;
      hide Leads;
      ghost var n := Model();
      reset, es := TakeKeepalive(p);
      if !reset && peers[p].direction.Incoming? {
        ghost var n1 := Model();
        ghost var e := SendControl(p, Keepalive);
        LeadsTo(n, es, n1, e, Model());
        es := es + [e];
      }
    }

    method TakeKeepalive(p: PeerId) returns (reset: bool, ghost es: seq<Event>)
      requires Valid() && p in peers
      modifies this`clientCalls, this`lastWithdrawn, this`subscribers, PeerObjects()`txChan, TableObjects(), PeerAt(p)`state
      ensures Valid() && Leads(old(Model()), es, Model())
      ensures reset <==> Handshake.OnKeepalive(peers[p].direction, old(peers[p].state)).WrongState?
      ensures if Handshake.OnKeepalive(peers[p].direction, old(peers[p].state)).Establish?
        then |es| == 1 && IsSet(es[0], p, Established) else es == []
      ensures if reset then peers[p].state == old(peers[p].state) else peers[p].state.Established?
      ensures old(peers[p].txChan) <= peers[p].txChan
      ensures reset || old(peers[p].state).Established? ==> peers[p].txChan == old(peers[p].txChan)
    {
      hide MetalBond.Valid;
      hide MetalBond.Model;
      hide MetalBond.PeerObjects;
      hide MetalBond.TableObjects;
      hide MetalBond.ReceivedTables;
      hide Enabled;
      hide Step;
      hide Leads;
      ghost var n := Model();
      LeadsNowhere(n);
      reset, es := false, [];
      match Handshake.OnKeepalive(peers[p].direction, peers[p].state) {
        case Establish =>
          var _, e := SetState(p, Established);
          LeadsOne(n, e, Model());
          es := [e];
        case Continue =>
        case WrongState =>
          reset := true;
      }
    }

    /**
     * One message taken by the select loop of handle. `blocked`: the goroutine
     * waits for mtxSubscribers for good, the last of `es` being what it got to;
     * `hangs`: it waits for itself.
     */
    method Receive(p: PeerId, m: Message) returns (reset: bool, blocked: bool, hangs: bool, ghost es: seq<Event>)
      requires Valid() && p in peers && Deliverable(m)
      modifies this`registered, this`clientCalls, this`lastWithdrawn, this`subscribers, this`subscribersLocked
      modifies PeerObjects()`txChan, TableObjects(), PeerObjects()`state
      modifies PeerAt(p)`isServer, PeerAt(p)`keepaliveInterval, PeerAt(p)`subscribedVNIs, PeerAt(p)`since
      ensures Valid() && Ends(old(Model()), es, blocked, Model())
      ensures blocked ==> old(subscribersLocked)
      ensures reset <==> m.Keepalive? && Handshake.OnKeepalive(peers[p].direction, old(peers[p].state)).WrongState?
      ensures m.Hello? ==> HelloEvents(old(Model()), old(Book()), p, m.interval, m.isServer, es, blocked, hangs, isServer)
      ensures m.Keepalive? ==> !blocked && !hangs && KeepaliveEvents(es, p, peers[p].direction, old(peers[p].state))
      ensures m.Subscribe? && ComesEarly(old(Model()), p, m) && !old(subscribersLocked) ==>
        !blocked && EarlyEvents(old(Model()), old(Book()), p, m.vni, es, hangs)
      ensures m.Subscribe? && !(ComesEarly(old(Model()), p, m) && !old(subscribersLocked)) ==>
        !hangs && |es| == 1 && es[0].EvSubscribe? && es[0].p == p && es[0].vni == m.vni
      ensures m.Unsubscribe? ==> !hangs && |es| == 1 && es[0].EvUnsubscribe? && es[0].p == p && es[0].vni == m.vni
      ensures m.Update? ==> !hangs && es == [EvUpdate(p, m.action, m.path)]
      ensures forall e :: e in es ==> FromPeer(e)
      ensures !blocked ==> Book() == if ResetsOn(old(Model()), p, m) then ResetBook(old(Model()), old(Book()), p) else old(Book())
    {
      hide MetalBond.Valid;
      hide MetalBond.Model;
      hide MetalBond.TableObjects;
      hide MetalBond.ReceivedTables;
      hide Outcome;
      hide Leads;
      hide Ends;
      hide HelloEvents;
      hide KeepaliveEvents;
      hide EarlyEvents;
      hide EarlyResets;
      hide ResetBook;
      hide FromPeer;
      PeerBasics(p);
      NoReset(Model(), Book(), p);
      reset := false;
      match m {
        case Hello(interval, isServer) =>
          blocked, hangs, es := ProcessRxHello(p, interval, isServer);
        case Subscribe(vni) =>
          blocked, hangs, es := ProcessRxSubscribe(p, vni);
        case _ =>
          hangs := false;
          reset, blocked, es := ReceiveOther(p, m);
      }
    }

    /** The messages that never reset a peer. */
    method ReceiveOther(p: PeerId, m: Message) returns (reset: bool, blocked: bool, ghost es: seq<Event>)
      requires Valid() && p in peers && Deliverable(m) && (m.Keepalive? || m.Unsubscribe? || m.Update?)
      modifies this`clientCalls, this`lastWithdrawn, this`subscribers, PeerObjects()`txChan, TableObjects()
      modifies PeerAt(p)`state, PeerAt(p)`subscribedVNIs
      ensures Valid() && Ends(old(Model()), es, blocked, Model()) && (forall e :: e in es ==> FromPeer(e))
      ensures blocked ==> subscribersLocked
      ensures reset <==> m.Keepalive? && Handshake.OnKeepalive(peers[p].direction, old(peers[p].state)).WrongState?
      ensures m.Keepalive? ==> !blocked && KeepaliveEvents(es, p, peers[p].direction, old(peers[p].state))
      ensures m.Unsubscribe? ==> |es| == 1 && es[0].EvUnsubscribe? && es[0].p == p && es[0].vni == m.vni
      ensures m.Update? ==> es == [EvUpdate(p, m.action, m.path)]
    {
      hide MetalBond.Valid;
      hide MetalBond.Model;
      hide MetalBond.PeerObjects;
      hide MetalBond.TableObjects;
      hide MetalBond.ReceivedTables;
      hide Outcome;
      hide Leads;
      hide Ends;
      hide Handshake.OnKeepalive;
      hide KeepaliveEvents;
      ghost var n := Model();
      reset, blocked := false, false;
      match m {
        case Keepalive =>
          reset, es := ProcessRxKeepalive(p);
          EndsWell(n, es, Model());
        case Unsubscribe(vni) =>
          ghost var e;
          blocked, e := ProcessRxUnsubscribe(p, vni);
          EndsOne(n, e, blocked, Model());
          es := [e];
        case Update(action, path) =>
          ghost var e;
          blocked, e := ProcessRxUpdate(p, action, path);
          EndsOne(n, e, blocked, Model());
          es := [e];
      }
    }

    // The node leaves a VNI

    method ClearReceivedHops(p: PeerId, vni: VNI, dest: Destination, nhs: seq<NextHop>, ghost n: Node, ghost s: set<Path>)
      requires Valid() && p in peers && p in n.peers
      requires Model() == SetReceived(n, p, n.peers[p].received - TuplesFrom(p, s))
      modifies PeerAt(p).receivedRoutes
      ensures Valid() && Model() == SetReceived(n, p, n.peers[p].received - TuplesFrom(p, s + HopPaths(vni, dest, nhs)))
    {
      hide MetalBond.Valid;
      hide MetalBond.Model;
      NoHopsListed(s, vni, dest, nhs);
      for i := 0 to |nhs|
        invariant Valid()
        invariant Model() == SetReceived(n, p, n.peers[p].received - TuplesFrom(p, s + HopPaths(vni, dest, nhs[..i])))
      {
        OneMoreTuple(p, s, vni, dest, nhs, i, n.peers[p].received);
        SetReceivedTwice(n, p, n.peers[p].received - TuplesFrom(p, s + HopPaths(vni, dest, nhs[..i])));
        var _ := RemoveFromReceived(p, Path(vni, dest, nhs[i]));
      }
    }

    method ClearReceived(p: PeerId, vni: VNI)
      requires Valid() && p in peers
      modifies PeerAt(p).receivedRoutes
      ensures Valid()
      ensures Model() == SetReceived(old(Model()), p, (set e | e in old(Model()).peers[p].received && e.path.vni != vni))
    {
      hide MetalBond.Valid;
      hide MetalBond.Model;
      hide Listed;
      hide HopPaths;
      hide TuplesFrom;
      ModelBasics();
      ghost var n := Model();
      var listing := ReceivedListing(p, vni);
      var todo := listing.Keys;
      ClearedNothing(n, p, vni, listing);
      while todo != {}
        invariant Valid() && todo <= listing.Keys
        invariant Model() == SetReceived(n, p, n.peers[p].received - TuplesFrom(p, {} + Listed(vni, listing, listing.Keys - todo)))
        decreases todo
      {
        var d :| d in todo;
        VisitOne(listing.Keys, todo, d);
        NextDestinationListed(vni, listing, {}, listing.Keys - todo, d);
        ClearReceivedHops(p, vni, d, listing[d], n, {} + Listed(vni, listing, listing.Keys - todo));
        todo := todo - {d};
      }
      assert listing.Keys - todo == listing.Keys;
      ClearedReceived(n, p, vni);
    }

    /** metalBondPeer.Unsubscribe */
    method UnsubscribePeer(p: PeerId, vni: VNI) returns (ok: bool)
      requires Valid() && p in peers
      modifies PeerAt(p)`txChan, PeerAt(p).receivedRoutes
      ensures Valid() && Model() == WithPeer(old(Model()), p, UnsubscribedPeer(old(Model()).peers[p], vni))
      ensures ok <==> peers[p].direction.Outgoing? && !peers[p].state.Closed?
      ensures peers[p].txChan == old(peers[p].txChan) + if ok then [Message.Unsubscribe(vni)] else []
    {
      hide MetalBond.Valid;
      hide MetalBond.Model;
      PeerBasics(p);
      ghost var n := Model();
      if peers[p].direction.Incoming? {
        assert n.peers[p := n.peers[p]] == n.peers;
        return false;
      }
      ClearReceived(p, vni);
      ok := !peers[p].state.Closed?;
      if ok {
        SetThenPush(n, p, (set e | e in n.peers[p].received && e.path.vni != vni), Message.Unsubscribe(vni));
        Send(p, Message.Unsubscribe(vni));
      }
    }

    /** NextHopExists on the node's table, for a hop that is there and so leaves no empty map behind. */
    method TableHolds(path: Path, from: PeerId) returns (found: bool)
      requires Valid() && HasSource(Model().table, path)
      modifies routeTable
      ensures Valid() && Model() == old(Model())
      ensures found <==> Entry(path, Remote(from)) in Model().table
    {
      hide RouteTable.Valid;
      hide RouteTable.NoEmptyHop;
      hide MetalBond.AddressesValid;
      routeTable.HopsAreTuplePaths();
      assert path in routeTable.hops by {
        var s :| Entry(path, s) in routeTable.entries;
        assert Entry(path, s).path in PathsOf(routeTable.entries);
      }
      found := routeTable.NextHopExists(path, Remote(from));
      assert Model().peers == old(Model()).peers;
    }

    method TableListing(vni: VNI) returns (listing: Listing)
      requires Valid()
      ensures Valid() && Model() == old(Model())
      ensures ListingOf(listing, vni, PathsAt(Model(), vni))
    {
      hide RouteTable.Valid;
      hide RouteTable.NoEmptyHop;
      hide MetalBond.AddressesValid;
      routeTable.HopsAreTuplePaths();
      listing := routeTable.GetDestinationsByVNI(vni);
      ListingIs(listing, vni, PathsAt(Model(), vni));
    }

    method ClearTableHops(p: PeerId, vni: VNI, dest: Destination, nhs: seq<NextHop>, ghost n: Node, ghost s: set<Path>)
      requires Valid() && Distinct(nhs) && (forall h :: Path(vni, dest, h) !in s)
      requires forall h :: h in nhs ==> HasSource(n.table, Path(vni, dest, h))
      requires Model() == n.(table := n.table - TuplesFrom(p, s))
      modifies routeTable
      ensures Valid() && Model() == n.(table := n.table - TuplesFrom(p, s + HopPaths(vni, dest, nhs)))
    {
      hide MetalBond.Valid;
      hide MetalBond.Model;
      hide HasSource;
      NoHopsListed(s, vni, dest, nhs);
      for i := 0 to |nhs|
        invariant Valid()
        invariant Model() == n.(table := n.table - TuplesFrom(p, s + HopPaths(vni, dest, nhs[..i])))
      {
        OneMoreTuple(p, s, vni, dest, nhs, i, n.table);
        KeyStillThere(p, s, vni, dest, nhs, i, n.table);
        var found := TableHolds(Path(vni, dest, nhs[i]), p);
        if found {
          var _, _ := RemoveFromTable(Path(vni, dest, nhs[i]), p);
        }
      }
    }

    /** The node's own routes in the VNI that came from one peer. */
    method ClearTable(p: PeerId, vni: VNI)
      requires Valid()
      modifies routeTable
      ensures Valid()
      ensures Model() == old(Model()).(table := set e | e in old(Model()).table && !(e.path.vni == vni && e.source == Remote(p)))
    {
      hide MetalBond.Valid;
      hide MetalBond.Model;
      hide Listed;
      hide HopPaths;
      hide TuplesFrom;
      hide HasSource;
      ghost var n := Model();
      var listing := TableListing(vni);
      var todo := listing.Keys;
      ClearedNone(n, p, vni, listing);
      while todo != {}
        invariant Valid() && todo <= listing.Keys
        invariant Model() == n.(table := n.table - TuplesFrom(p, {} + Listed(vni, listing, listing.Keys - todo)))
        decreases todo
      {
        var d :| d in todo;
        VisitOne(listing.Keys, todo, d);
        NextDestinationListed(vni, listing, {}, listing.Keys - todo, d);
        ClearTableHops(p, vni, d, listing[d], n, {} + Listed(vni, listing, listing.Keys - todo));
        todo := todo - {d};
      }
      assert listing.Keys - todo == listing.Keys;
      ClearedTable(n, p, vni);
    }

    /**
     * MetalBond.Unsubscribe: removes exactly the VNI's tuples that came from
     * current peers and leaves no empty inner map behind.
     */
    method Unsubscribe(vni: VNI) returns (ok: bool, ghost e: Event)
      requires Valid()
      modifies this`mySubscriptions, routeTable, ReceivedTables(), PeerObjects()`txChan
      ensures Valid() && Enabled(old(Model()), e) && Model() == Step(old(Model()), e)
      ensures e == EvLocalUnsubscribe(vni)
      ensures routeTable.NoEmptyHop()
      ensures forall t :: t in routeTable.entries <==>
        t in old(routeTable.entries) && !(ok && t.path.vni == vni && t.source.Remote? && t.source.id in Members())
      ensures ok <==> vni in old(mySubscriptions)
      ensures mySubscriptions == old(mySubscriptions) - {vni}
      ensures forall q :: q in peers ==>
        peers[q].txChan == old(peers[q].txChan) +
          if ok && q in Members() && peers[q].direction == Outgoing && peers[q].state != Closed then [Message.Unsubscribe(vni)] else []
    {
      hide MetalBondPeer.Model;
      hide MetalBond.Valid;
      hide MetalBond.Model;
      hide Enabled;
      hide Step;
      hide LocalUnsubscribe;
      ModelBasics();
      StreamBasics();
      TableBasics();
      ghost var n := Model();
      e := EvLocalUnsubscribe(vni);
      LocalUnsubscribeIsEvent(n, vni);
      Sending.UnsubscriptionTellsMembers(n, vni);
      UnsubscriptionClears(n, vni);
      ok := GiveUp(vni);
      StreamBasics();
      TableBasics();
      forall q | q in peers
        ensures peers[q].txChan == old(peers[q].txChan) +
          if ok && q in Members() && peers[q].direction == Outgoing && peers[q].state != Closed then [Message.Unsubscribe(vni)] else []
      {
        assert Model().peers[q].sent == peers[q].txChan;
      }
    }

    method GiveUp(vni: VNI) returns (ok: bool)
      requires Valid()
      modifies this`mySubscriptions, routeTable, ReceivedTables(), PeerObjects()`txChan
      ensures Valid() && Model() == LocalUnsubscribe(old(Model()), vni)
      ensures ok <==> vni in old(mySubscriptions)
      ensures mySubscriptions == old(mySubscriptions) - {vni}
    {
      hide MetalBondPeer.Model;
      hide MetalBond.Valid;
      hide MetalBond.Model;
      ModelBasics();
      ok := vni in mySubscriptions;
      assert !ok ==> mySubscriptions - {vni} == mySubscriptions;
      if ok {
        UnsubscribeAllMembers(vni);
        WriteMySubscriptions(mySubscriptions - {vni});
      }
    }

    method UnsubscribeAllMembers(vni: VNI)
      requires Valid()
      modifies routeTable, ReceivedTables(), PeerObjects()`txChan
      ensures Valid() && Model() == UnsubscribeMembers(old(Model()), vni, Members())
    {
      hide MetalBond.Valid;
      hide MetalBond.Model;
      hide UnsubscribeMembers;
      ModelBasics();
      ghost var n := Model();
      var todo := Members();
      UnsubscribedNobody(n, vni, Members() - todo);
      while todo != {}
        invariant Valid() && todo <= Members()
        invariant Model() == UnsubscribeMembers(n, vni, Members() - todo)
        decreases todo
      {
        var p :| p in todo;
        VisitOne(Members(), todo, p);
        UnsubscribeOneMore(n, vni, Members() - todo, p);
        var _ := UnsubscribePeer(p, vni);
        ClearTable(p, vni);
        todo := todo - {p};
      }
      assert Members() - todo == Members();
    }

    // Peers come and go

    method UnsubscribeFrom(p: PeerId) returns (ghost vnis: seq<VNI>)
      requires Valid() && p in peers
      modifies this`mySubscriptions, routeTable, ReceivedTables(), PeerObjects()`txChan
      ensures Valid() && Enumerates(vnis, peers[p].subscribedVNIs)
      ensures Model() == UnsubscribeAll(old(Model()), vnis)
    {
      hide MetalBond.PeerObjects;
      hide MetalBond.ReceivedTables;
      hide UnsubscribeMembers;
      hide MetalBond.Valid;
      hide MetalBond.Model;
      hide Enumerates;
      hide LocalUnsubscribe;
      ghost var n := Model();
      vnis := [];
      EnumeratesEmpty<VNI>();
      var mine := peers[p].subscribedVNIs;
      var todo := mine;
      assert mine - todo == {};
      while todo != {}
        invariant Valid() && Model() == UnsubscribeAll(n, vnis)
        invariant todo <= mine && Enumerates(vnis, mine - todo)
        decreases todo
      {
        var v :| v in todo;
        VisitOne(mine, todo, v);
        EnumeratesOneMore(vnis, mine - todo, v);
        assert (vnis + [v])[..|vnis|] == vnis;
        var _, _ := Unsubscribe(v);
        vnis, todo := vnis + [v], todo - {v};
      }
      assert mine - todo == mine;
    }

    method ReceivedVNIs(p: PeerId) returns (vnis: seq<VNI>)
      requires Valid() && p in peers
      ensures Valid() && Model() == old(Model())
      ensures Distinct(vnis) && (forall e :: e in Model().peers[p].received ==> e.path.vni in vnis)
    {
      hide RouteTable.Valid;
      hide RouteTable.NoEmptyHop;
      hide MetalBond.AddressesValid;
      peers[p].receivedRoutes.HopsAreTuplePaths();
      vnis := peers[p].receivedRoutes.GetVNIs();
    }

    /** The loops of cleanup over the routes the peer has left. */
    method PurgeAll(p: PeerId) returns (blocked: bool, ghost order: seq<Path>)
      requires Valid() && p in peers
      modifies this`clientCalls, this`lastWithdrawn, PeerObjects()`txChan, TableObjects()
      ensures Valid() && p in old(Model()).peers && Purging(old(Model()), p, order, blocked, Model())
      ensures blocked ==> subscribersLocked
      ensures Visits(order, ReceivedPaths(old(Model()), p), blocked)
    {
      hide MetalBond.PeerObjects;
      hide MetalBond.ReceivedTables;
      hide MetalBond.TableObjects;
      hide MetalBond.Valid;
      hide MetalBond.Model;
      hide Enumerates;
      hide Purging;
      hide Visits;
      hide ReceivedIn;
      hide ReceivedAt;
      hide ReceivedPaths;
      ModelBasics();
      ghost var n := Model();
      var vnis := ReceivedVNIs(p);
      blocked, order := false, [];
      PurgingNothing(n, p);
      ReceivedBounds(n, p, vnis);
      for i := 0 to |vnis|
        invariant Valid() && Purging(n, p, order, false, Model())
        invariant Enumerates(order, ReceivedIn(n, p, ToSet(vnis[..i])))
      {
        ReceivedOneMore(n, p, vnis, i);
        blocked, order := PurgeVNI(p, vnis[i], n, order, ReceivedIn(n, p, ToSet(vnis[..i])));
        VisitsReceived(n, p, order, vnis, i, blocked);
        if blocked {
          return;
        }
      }
      VisitsAll(order, ReceivedPaths(n, p));
    }

    /** cleanup */
    method Cleanup(p: PeerId) returns (blocked: bool, ghost e: Event)
      requires Valid() && p in peers
      modifies this`mySubscriptions, this`clientCalls, this`lastWithdrawn, PeerObjects()`txChan, TableObjects()
      ensures e.EvCleanup? && e.p == p
      ensures Valid() && Outcome(old(Model()), e, blocked, Model())
      ensures blocked ==> subscribersLocked
    {
      hide MetalBond.Valid;
      hide MetalBond.Model;
      hide Enumerates;
      hide Purging;
      hide Visits;
      hide Outcome;
      ModelBasics();
      ghost var n := Model();
      ghost var left := UnsubscribeFrom(p);
      ModelBasics();
      ghost var order;
      blocked, order := PurgeAll(p);
      e := CleanupOutcomes(n, p, left, order, blocked, Model());
    }

    ghost method NoteAddress(p: PeerId, addr: string)
      requires Valid() && p !in peers
      modifies this`addrs
      ensures Valid() && Model() == old(Model()) && addrs == old(addrs)[p := addr]
    {
      hide RouteTable.Valid;
      hide RouteTable.NoEmptyHop;
      hide MetalBond.PeersValid;
      hide MetalBond.PeerModels;
      addrs := addrs[p := addr];
      PeersUntouched();
    }

    method InsertPeer(p: PeerId, peer: MetalBondPeer)
      requires Valid() && p !in peers && p in addrs && addrs[p] == peer.addr
      requires peer.id == p && peer.Valid()
      modifies this`peers
      ensures Valid() && peers == old(peers)[p := peer]
      ensures Model() == WithPeer(old(Model()), p, peer.Model())
    {
      hide MetalBondPeer.Valid;
      hide MetalBondPeer.Model;
      peers := peers[p := peer];
      assert Model().peers == old(Model()).peers[p := peer.Model()];
    }

    method InsertMember(addr: string, p: PeerId)
      requires Valid() && p in peers && peers[p].addr == addr && addr !in registered
      modifies this`registered
      ensures registered == old(registered)[addr := p]
      ensures Valid() && Model() == old(Model()).(members := old(Model()).members + {p})
    {
      hide RouteTable.Valid;
      hide RouteTable.NoEmptyHop;
      hide MetalBond.PeersValid;
      hide MetalBond.PeerModels;
      ValuesWith(registered, addr, p);
      registered := registered[addr := p];
      PeersUntouched();
    }

    /** A new peer object under a free address. */
    method Connect(addr: string, p: PeerId, direction: Direction) returns (ghost e: Event)
      requires Valid() && p !in peers && addr !in registered
      modifies this`registered, this`peers, this`addrs
      ensures e == EvConnect(p, direction, keepaliveInterval)
      ensures Valid() && Enabled(old(Model()), e) && Model() == Step(old(Model()), e)
      ensures registered == old(registered)[addr := p]
      ensures addrs == old(addrs)[p := addr]
      ensures p in peers && fresh(peers[p]) && fresh(peers[p].receivedRoutes) && peers == old(peers)[p := peers[p]]
      ensures peers[p].Model() == Peer(direction, false, Connecting, keepaliveInterval, {}, {}, [], map[])
    {
      hide RouteTable.Valid;
      hide RouteTable.NoEmptyHop;
      hide Enabled;
      hide Step;
      e := EvConnect(p, direction, keepaliveInterval);
      ConnectIsEvent(Model(), p, direction, keepaliveInterval);
      var peer := new MetalBondPeer(p, addr, direction, keepaliveInterval);
      assert Model().peers == old(Model()).peers;
      NoteAddress(p, addr);
      InsertPeer(p, peer);
      InsertMember(addr, p);
    }

    /** AddPeer refuses an address that is registered already. */
    method AddPeer(addr: string, p: PeerId) returns (ok: bool, ghost es: seq<Event>)
      requires Valid() && p !in peers
      modifies this`registered, this`peers, this`addrs
      ensures ok <==> addr !in old(registered)
      ensures es == if ok then [EvConnect(p, Outgoing, keepaliveInterval)] else []
      ensures Valid() && Leads(old(Model()), es, Model())
      ensures registered == if ok then old(registered)[addr := p] else old(registered)
      ensures peers == if ok then old(peers)[p := peers[p]] else old(peers)
      ensures ok ==> fresh(peers[p]) && fresh(peers[p].receivedRoutes)
      ensures ok ==> peers[p].Model() == Peer(Outgoing, false, Connecting, keepaliveInterval, {}, {}, [], map[])
    {
      hide MetalBond.Valid;
      hide MetalBond.Model;
      hide Enabled;
      hide Step;
      hide Leads;
      ghost var n := Model();
      LeadsNowhere(n);
      ok, es := addr !in registered, [];
      if ok {
        ghost var e := Connect(addr, p, Outgoing);
        LeadsOne(n, e, Model());
        es := [e];
      }
    }

    /** The accept loop of StartServer puts the new peer in the place of one registered under its address. */
    method Accept(addr: string, p: PeerId) returns (ghost es: seq<Event>)
      requires Valid() && p !in peers
      modifies this`registered, this`peers, this`addrs
      ensures es == (if addr in old(registered) then [EvForget(old(registered[addr]))] else [])
                    + [EvConnect(p, Incoming, keepaliveInterval)]
      ensures Valid() && Leads(old(Model()), es, Model())
      ensures registered == old(registered)[addr := p]
      ensures addrs == old(addrs)[p := addr]
      ensures p in peers && fresh(peers[p]) && fresh(peers[p].receivedRoutes) && peers == old(peers)[p := peers[p]]
      ensures peers[p].Model() == Peer(Incoming, false, Connecting, keepaliveInterval, {}, {}, [], map[])
    {
      hide MetalBond.Valid;
      hide MetalBond.Model;
      hide Enabled;
      hide Step;
      hide Leads;
      ModelBasics();
      ghost var n := Model();
      LeadsNowhere(n);
      es := [];
      if addr in registered {
        ForgetIsEvent(n, registered[addr]);
        LeadsOne(n, EvForget(registered[addr]), n.(members := n.members - {registered[addr]}));
        es := [EvForget(registered[addr])];
        DeleteMember(addr);
      }
      ghost var n1 := Model();
      ghost var e := Connect(addr, p, Incoming);
      LeadsTo(n, es, n1, e, Model());
      es := es + [e];
    }

    /** metalBondPeer.Close */
    method Close(p: PeerId) returns (blocked: bool, ghost es: seq<Event>)
      requires Valid() && p in peers
      modifies this`clientCalls, this`lastWithdrawn, this`subscribers, PeerObjects()`txChan, TableObjects(), PeerAt(p)`state
      ensures Valid() && Ends(old(Model()), es, blocked, Model()) && (forall e :: e in es ==> FromPeer(e))
      ensures peers[p].state.Closed?
      ensures if old(peers[p].state).Closed? then es == [] else |es| == 1 && IsSet(es[0], p, Closed)
      ensures blocked <==> subscribersLocked && !old(peers[p].state).Closed?
    {
      hide MetalBond.Valid;
      hide MetalBond.Model;
      hide MetalBond.PeerObjects;
      hide MetalBond.TableObjects;
      hide MetalBond.ReceivedTables;
      hide Outcome;
      hide Ends;
      hide Leads;
      ghost var n := Model();
      EndsNowhere(n);
      blocked, es := false, [];
      if !peers[p].state.Closed? {
        ghost var e;
        blocked, e := SetState(p, Closed);
        EndsOne(n, e, blocked, Model());
        es := [e];
      }
    }

    /** unsafeRemovePeer */
    method RemovePeer(addr: string) returns (ok: bool, blocked: bool, ghost es: seq<Event>)
      requires Valid()
      modifies this`registered, this`clientCalls, this`lastWithdrawn, this`subscribers, PeerObjects()`txChan, TableObjects()
      modifies PeerObjects()`state
      ensures Valid() && Ends(old(Model()), es, blocked, Model()) && (forall e :: e in es ==> FromPeer(e))
      ensures ok <==> addr in old(registered)
      ensures forall q :: q in peers ==> peers[q].state == old(peers[q].state) || peers[q].state == Closed
      ensures !ok ==> es == [] && !blocked && registered == old(registered)
      ensures ok ==> registered == if blocked then old(registered) else old(registered) - {addr}
      ensures ok ==>
        && old(registered[addr]) in peers && peers[old(registered[addr])].state.Closed?
        && RemovalEvents(es, old(registered[addr]), old(PeerAt(registered[addr]).state), blocked)
        && (blocked <==> subscribersLocked && !old(PeerAt(registered[addr]).state).Closed?)
    {
      hide MetalBond.Valid;
      hide MetalBond.Model;
      hide MetalBond.TableObjects;
      hide MetalBond.ReceivedTables;
      hide Ends;
      hide RemovalEvents;
      ok := addr in registered;
      if ok {
        AddressBasics(addr);
        blocked, es := RemoveFound(addr, registered[addr]);
      } else {
        EndsNowhere(Model());
        blocked, es := false, [];
      }
    }

    method ForgetMember(addr: string, p: PeerId)
      requires Valid() && addr in registered && registered[addr] == p
      modifies this`registered
      ensures registered == old(registered) - {addr}
      ensures Valid() && Ends(old(Model()), [EvForget(p)], false, Model())
    {
      hide MetalBond.Valid;
      hide MetalBond.Model;
      hide Enabled;
      hide Step;
      hide Ends;
      ModelBasics();
      ghost var n := Model();
      DeleteMember(addr);
      ForgetIsEvent(n, p);
      EndsEvent(n, EvForget(p), Model());
    }

    method RemoveFound(addr: string, p: PeerId) returns (blocked: bool, ghost es: seq<Event>)
      requires Valid() && addr in registered && registered[addr] == p && p in peers
      modifies this`registered, this`clientCalls, this`lastWithdrawn, this`subscribers, PeerObjects()`txChan, TableObjects()
      modifies PeerAt(p)`state
      ensures Valid() && Ends(old(Model()), es, blocked, Model()) && (forall e :: e in es ==> FromPeer(e))
      ensures registered == if blocked then old(registered) else old(registered) - {addr}
      ensures peers[p].state.Closed? && RemovalEvents(es, p, old(peers[p].state), blocked)
      ensures blocked <==> subscribersLocked && !old(peers[p].state).Closed?
    {
      hide MetalBond.Valid;
      hide MetalBond.Model;
      hide MetalBond.PeerObjects;
      hide MetalBond.TableObjects;
      hide MetalBond.ReceivedTables;
      hide Ends;
      hide IsSet;
      hide RemovalEvents;
      ghost var n := Model();
      var was := peers[p].state;
      blocked, es := Close(p);
      ClosedAndForgotten(es, p, was);
      if !blocked {
        ghost var n1 := Model();
        ForgetMember(addr, p);
        EndsAfter(n, es, n1, [EvForget(p)], false, Model());
        es := es + [EvForget(p)];
      }
    }

    /**
     * Reset, as far as it goes before an outgoing peer waits for its
     * goroutines. An incoming peer is closed, and whoever is registered under
     * its address is closed and removed.
     */
    method Reset(p: PeerId) returns (blocked: bool, ghost es: seq<Event>)
      requires Valid() && p in peers
      modifies this`registered, this`clientCalls, this`lastWithdrawn, this`subscribers, PeerObjects()`txChan, TableObjects()
      modifies PeerObjects()`state
      ensures Valid() && Ends(old(Model()), es, blocked, Model()) && (forall e :: e in es ==> FromPeer(e))
      ensures ResetEvents(old(Model()), old(Book()), p, es, blocked)
      ensures Book() == if blocked then old(Book()) else ResetBook(old(Model()), old(Book()), p)
      ensures blocked <==>
        subscribersLocked && !old(peers[p].state).Closed? && !(peers[p].direction.Outgoing? && old(peers[p].state).Retry?)
      ensures peers[p].state == if old(peers[p].state) != Closed && peers[p].direction == Outgoing then Retry else Closed
    {
      hide MetalBond.Valid;
      hide MetalBond.Model;
      hide MetalBond.TableObjects;
      hide MetalBond.ReceivedTables;
      hide Outcome;
      hide Ends;
      PeerBasics(p);
      ghost var n := Model();
      if peers[p].state.Closed? {
        EndsNowhere(n);
        blocked, es := false, [];
      } else if peers[p].direction.Outgoing? {
        ghost var e;
        blocked, e := SetState(p, Retry);
        EndsOne(n, e, blocked, Model());
        es := [e];
      } else {
        blocked, es := CloseAndRemove(p);
      }
    }

    method CloseAndRemove(p: PeerId) returns (blocked: bool, ghost es: seq<Event>)
      requires Valid() && p in peers && !peers[p].state.Closed? && peers[p].direction.Incoming?
      modifies this`registered, this`clientCalls, this`lastWithdrawn, this`subscribers, PeerObjects()`txChan, TableObjects()
      modifies PeerObjects()`state
      ensures Valid() && Ends(old(Model()), es, blocked, Model()) && (forall e :: e in es ==> FromPeer(e))
      ensures ResetEvents(old(Model()), old(Book()), p, es, blocked)
      ensures blocked <==> subscribersLocked
      ensures peers[p].state == Closed
      ensures registered == if blocked then old(registered) else old(registered) - {peers[p].addr}
    {
      hide MetalBond.Valid;
      hide MetalBond.Model;
      hide MetalBond.TableObjects;
      hide MetalBond.ReceivedTables;
      hide Ends;
      hide RemovalEvents;
      hide ResetEvents;
      hide IsSet;
      hide FromPeer;
      PeerBasics(p);
      ghost var n, book := Model(), Book();
      var addr := peers[p].addr;
      var q := p;
      if addr in registered {
        AddressBasics(addr);
        q := registered[addr];
        PeerBasics(q);
      }
      var was := peers[q].state;
      ghost var first;
      blocked, first := Close(p);
      es := first;
      ClosedOnly(n, book, p, first);
      if !blocked {
        assert peers[q].state == if q == p then Closed else was;
        ghost var n1, more := Model(), [];
        var ok;
        ok, blocked, more := RemovePeer(addr);
        EndsAfter(n, first, n1, more, blocked, Model());
        ClosedAndRemoved(n, book, p, first, more);
        es := first + more;
      }
    }

    // The node as a server

    method ServeMessage(p: PeerId, m: Message) returns (ghost es: seq<Event>)
      requires Valid() && !subscribersLocked && isServer && p in peers && Deliverable(m)
      modifies this`registered, this`clientCalls, this`lastWithdrawn, this`subscribers, this`subscribersLocked
      modifies PeerObjects()`txChan, TableObjects(), PeerObjects()`state
      modifies PeerAt(p)`isServer, PeerAt(p)`keepaliveInterval, PeerAt(p)`subscribedVNIs, PeerAt(p)`since
      ensures Valid() && Leads(old(Model()), es, Model()) && (forall e :: e in es ==> FromPeer(e))
      ensures Does(old(Model()), old(Book()), Receives(p, m), es, keepaliveInterval)
      ensures Book() == BookAfter(old(Model()), old(Book()), Receives(p, m))
    {
      hide MetalBond.Valid;
      hide MetalBond.Model;
      hide MetalBond.PeerObjects;
      hide MetalBond.TableObjects;
      hide MetalBond.ReceivedTables;
      hide Leads;
      hide Ends;
      hide HelloEvents;
      hide EarlyEvents;
      hide KeepaliveEvents;
      hide EarlyResets;
      PeerBasics(p);
      ghost var n, book := Model(), Book();
      var _, _, hangs, done := Receive(p, m);
      LeadsIs(n, done, Model());
      HangsExactly(n, book, p, m, done, hangs);
      es := done;
    }

    method ServeClose(p: PeerId) returns (ghost es: seq<Event>)
      requires Valid() && !subscribersLocked && p in peers
      modifies this`clientCalls, this`lastWithdrawn, this`subscribers, PeerObjects()`txChan, TableObjects(), PeerAt(p)`state
      ensures Valid() && Leads(old(Model()), es, Model()) && (forall e :: e in es ==> FromPeer(e))
      ensures Does(old(Model()), old(Book()), Closes(p), es, keepaliveInterval)
      ensures Book() == BookAfter(old(Model()), old(Book()), Closes(p))
    {
      hide MetalBond.Valid;
      hide MetalBond.Model;
      hide MetalBond.PeerObjects;
      hide MetalBond.TableObjects;
      hide MetalBond.ReceivedTables;
      hide Outcome;
      hide Leads;
      hide Ends;
      PeerBasics(p);
      ghost var n := Model();
      var _, done := Close(p);
      LeadsIs(n, done, Model());
      es := done;
    }

    method ServeCleanup(p: PeerId) returns (ghost es: seq<Event>)
      requires Valid() && !subscribersLocked && p in peers
      modifies this`mySubscriptions, this`clientCalls, this`lastWithdrawn, PeerObjects()`txChan, TableObjects()
      ensures Valid() && Leads(old(Model()), es, Model()) && (forall e :: e in es ==> FromPeer(e))
      ensures Does(old(Model()), old(Book()), CleansUp(p), es, keepaliveInterval)
      ensures Book() == BookAfter(old(Model()), old(Book()), CleansUp(p))
    {
      hide MetalBond.Valid;
      hide MetalBond.Model;
      hide MetalBond.PeerObjects;
      hide MetalBond.TableObjects;
      hide MetalBond.ReceivedTables;
      hide Outcome;
      hide Leads;
      hide Ends;
      PeerBasics(p);
      ghost var n := Model();
      var _, e := Cleanup(p);
      EndsOne(n, e, false, Model());
      LeadsIs(n, [e], Model());
      es := [e];
    }

    method ServeRemoval(addr: string) returns (ghost es: seq<Event>)
      requires Valid() && !subscribersLocked
      modifies this`registered, this`clientCalls, this`lastWithdrawn, this`subscribers, PeerObjects()`txChan, TableObjects()
      modifies PeerObjects()`state
      ensures Valid() && Leads(old(Model()), es, Model()) && (forall e :: e in es ==> FromPeer(e))
      ensures Does(old(Model()), old(Book()), Removes(addr), es, keepaliveInterval)
      ensures Book() == BookAfter(old(Model()), old(Book()), Removes(addr))
    {
      hide MetalBond.Valid;
      hide MetalBond.Model;
      hide MetalBond.PeerObjects;
      hide MetalBond.TableObjects;
      hide MetalBond.ReceivedTables;
      hide Outcome;
      hide Leads;
      hide Ends;
      ghost var n := Model();
      if addr in registered {
        AddressBasics(addr);
        PeerBasics(registered[addr]);
      }
      var ok, _, done := RemovePeer(addr);
      LeadsIs(n, done, Model());
      es := done;
      assert !ok ==> registered - {addr} == registered;
    }

    method ServeConnection(addr: string, p: PeerId) returns (ghost es: seq<Event>)
      requires Valid() && p !in peers
      modifies this`registered, this`peers, this`addrs
      ensures Valid() && Leads(old(Model()), es, Model()) && (forall e :: e in es ==> FromPeer(e))
      ensures Does(old(Model()), old(Book()), Connects(addr, p), es, keepaliveInterval)
      ensures Book() == BookAfter(old(Model()), old(Book()), Connects(addr, p))
      ensures p in peers && fresh(peers[p]) && fresh(peers[p].receivedRoutes) && peers == old(peers)[p := peers[p]]
      ensures peers[p].Model() == Peer(Incoming, false, Connecting, keepaliveInterval, {}, {}, [], map[])
    {
      hide MetalBond.Valid;
      hide MetalBond.Model;
      hide Leads;
      hide Does;
      hide BookAfter;
      ModelBasics();
      ghost var n, book := Model(), Book();
      ConnectionDoes(n, book, addr, p, keepaliveInterval);
      es := Accept(addr, p);
    }

    /** What happens to the peers the server has; what does not apply is passed over. */
    method ServePeers(op: Op) returns (ghost es: seq<Event>)
      requires Valid() && !subscribersLocked && isServer && !op.Connects?
      modifies this`registered, this`mySubscriptions, this`clientCalls, this`lastWithdrawn, this`subscribers, this`subscribersLocked
      modifies PeerObjects(), TableObjects()
      ensures Valid() && Leads(old(Model()), es, Model()) && (forall e :: e in es ==> FromPeer(e))
      ensures Does(old(Model()), old(Book()), op, es, keepaliveInterval)
      ensures Book() == BookAfter(old(Model()), old(Book()), op)
    {
      hide MetalBond.Valid;
      hide MetalBond.Model;
      hide MetalBond.TableObjects;
      hide MetalBond.ReceivedTables;
      hide MetalBond.Book;
      hide Leads;
      hide Does;
      hide BookAfter;
      hide FromPeer;
      ModelBasics();
      ghost var n := Model();
      LeadsNowhere(n);
      DoesNotApply(n, Book(), op, keepaliveInterval);
      es := [];
      match op {
        case Receives(p, m) =>
          if p in peers && Deliverable(m) {
            es := ServeMessage(p, m);
          }
        case Closes(p) =>
          if p in peers {
            es := ServeClose(p);
          }
        case CleansUp(p) =>
          if p in peers {
            es := ServeCleanup(p);
          }
        case Removes(addr) =>
          es := ServeRemoval(addr);
      }
    }

    /**
     * One thing that happens to a server. What does not apply is passed over:
     * an unknown peer, an identity in use, an UPDATE the decoder does not produce.
     */
    method Serve(op: Op) returns (ghost es: seq<Event>)
      requires Valid() && !subscribersLocked && isServer
      modifies this, PeerObjects(), TableObjects()
      ensures Valid() && Leads(old(Model()), es, Model()) && (forall e :: e in es ==> FromPeer(e))
      ensures Does(old(Model()), old(Book()), op, es, keepaliveInterval)
      ensures Book() == BookAfter(old(Model()), old(Book()), op)
      ensures fresh(PeerObjects() - old(PeerObjects())) && fresh(ReceivedTables() - old(ReceivedTables()))
    {
      hide MetalBond.Valid;
      hide MetalBond.Model;
      hide MetalBond.Book;
      hide Leads;
      hide Does;
      hide BookAfter;
      hide FromPeer;
      ModelBasics();
      LeadsNowhere(Model());
      DoesNotApply(Model(), Book(), op, keepaliveInterval);
      es := [];
      if !op.Connects? {
        es := ServePeers(op);
      } else if op.p !in peers {
        es := ServeConnection(op.addr, op.p);
      }
    }
  }

  /**
   * A server through any sequence of accepted connections, messages and
   * departures, up to the first duplicate SUBSCRIBE: it is in the state of the
   * run of exactly the events of those calls, every subscriber's view is
   * faithful but for what it missed, and every route is owned. For the objects,
   * that is, and not only for runs of events.
   */
  method RunServer(interval: nat, ops: seq<Op>) returns (node: MetalBond, handled: nat, ghost parts: seq<seq<Event>>)
    ensures handled <= |ops| && (handled < |ops| ==> node.subscribersLocked)
    ensures Script(ops[..handled], parts, node.keepaliveInterval)
    ensures node.Valid() && node.Model() == After(InitNode, Flat(parts)) && ServerInv(node.Model(), MissedIn(Flat(parts)))
    ensures node.Book() == BookAt(ops[..handled], parts, handled)
  {
    hide MetalBond.Valid;
    hide MetalBond.Model;
    hide Leads;
    hide After;
    hide ServerInv;
    hide FromPeer;
    hide Does;
    hide Script;
    hide ServesWell;
    hide BookAfter;
    hide BookAt;
    node := new MetalBond(interval, true);
    parts, handled := [], 0;
    RoundsBegin(ops, node.keepaliveInterval);
    hide MetalBond.Book;
    while handled < |ops| && !node.subscribersLocked
      invariant handled <= |ops|
      invariant node.isServer && fresh(node) && fresh(node.PeerObjects()) && fresh(node.TableObjects())
      invariant node.Valid() && ServesWell(ops[..handled], parts, node.Model(), node.Book(), node.keepaliveInterval)
    {
      ghost var n, book := node.Model(), node.Book();
      ghost var more := node.Serve(ops[handled]);
      RoundDone(ops, handled, parts, n, book, more, node.Model(), node.Book(), node.keepaliveInterval);
      parts, handled := parts + [more], handled + 1;
    }
    ServedWell(ops[..handled], parts, node.Model(), node.Book(), node.keepaliveInterval);
  }

  lemma EarlyFromPeer(p: PeerId, vni: VNI)
    ensures FromPeer(EvSubscribeEarly(p, vni))
  {
  }

  lemma {:induction false} TellsAnnouncement(n: Node, path: Path, order: seq<PeerId>, r: Node)
    requires Outcome(n, EvAnnounce(path, order), false, r) && path !in n.announced && path.dest.ipVersion in {IPV4, IPV6}
    ensures Sending.TellsMembers(n, r, Update(ADD, path), order)
  {
    Sending.AnnouncementTellsMembers(n, path, order);
  }

  lemma {:induction false} TellsWithdrawal(n: Node, path: Path, order: seq<PeerId>, r: Node)
    requires Outcome(n, EvWithdraw(path, order), false, r) && path in n.announced && path.dest.ipVersion in {IPV4, IPV6}
    ensures Sending.TellsMembers(n, r, Update(REMOVE, path), order)
  {
    Sending.WithdrawalTellsMembers(n, path, order);
  }

  /** The events of the calls so far lead to `r` and `book`, and all of them come from peers. */
  ghost predicate ServesWell(ops: seq<Op>, parts: seq<seq<Event>>, r: Node, book: AddressBook, interval: nat) {
    && Script(ops, parts, interval) && Leads(InitNode, Flat(parts), r) && (forall e :: e in Flat(parts) ==> FromPeer(e))
    && book == BookAt(ops, parts, |ops|)
  }

  lemma {:induction false} RoundsBegin(ops: seq<Op>, interval: nat)
    ensures ServesWell(ops[..0], [], InitNode, AddressBook(map[], map[]), interval)
  {
    ScriptBegins(ops, interval);
  }

  lemma {:induction false} RoundDone(
      ops: seq<Op>, k: nat, parts: seq<seq<Event>>, n: Node, book: AddressBook, more: seq<Event>, r: Node, now: AddressBook, interval: nat)
    requires k < |ops| && ServesWell(ops[..k], parts, n, book, interval)
    requires Does(n, book, ops[k], more, interval) && now == BookAfter(n, book, ops[k])
    requires Leads(n, more, r) && forall e :: e in more ==> FromPeer(e)
    ensures ServesWell(ops[..k + 1], parts + [more], r, now, interval)
  {
    hide Does;
    hide Leads;
    hide After;
    hide BookAfter;
    hide BookAt;
    LeadsAfter(InitNode, Flat(parts), n);
    LeadsOn(InitNode, Flat(parts), n, more, r);
    ScriptGoesOn(ops, k, parts, more, interval);
  }

  lemma {:induction false} ServedWell(ops: seq<Op>, parts: seq<seq<Event>>, r: Node, book: AddressBook, interval: nat)
    requires ServesWell(ops, parts, r, book, interval)
    ensures |parts| == |ops| && Script(ops, parts, interval) && book == BookAt(ops, parts, |ops|)
    ensures r == After(InitNode, Flat(parts)) && ServerInv(r, MissedIn(Flat(parts)))
  {
    hide ServerInv;
    LeadsAfter(InitNode, Flat(parts), r);
    ServerInvInEveryRun(Flat(parts));
  }
}
