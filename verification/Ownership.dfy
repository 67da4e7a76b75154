/**
 * Who owns which route: in every run a peer's own table covers what the node's
 * table holds from it, so that leaving removes exactly the peer's routes.
 */
module Ownership {
  import opened Types
  import opened Engine

  /** The node's tuples from `p` are among `p`'s received routes, and those are all sourced from `p`. */
  ghost predicate Owned(n: Node) {
    && n.members <= n.peers.Keys
    && (forall e :: e in n.table ==> e.source.Remote? && e.source.id in n.peers && e in n.peers[e.source.id].received)
    && (forall p, e :: p in n.peers && e in n.peers[p].received ==> e.source == Remote(p))
  }

  /** Everything but the transmit streams is as in `n`, and those only grow. */
  ghost predicate OnlySends(n: Node, r: Node) {
    && r.peers.Keys == n.peers.Keys
    && r == n.(peers := r.peers)
    && (forall q :: q in n.peers ==>
          r.peers[q] == n.peers[q].(sent := r.peers[q].sent) && n.peers[q].sent <= r.peers[q].sent)
  }

  /** What `r` has sent beyond `n`: UPDATEs go to subscribers of their VNI only. */
  ghost predicate ToSubscribers(n: Node, r: Node, q: PeerId)
    requires q in n.peers && q in r.peers
  {
    && n.peers[q].sent <= r.peers[q].sent
    && (forall i :: |n.peers[q].sent| <= i < |r.peers[q].sent| && r.peers[q].sent[i].Update? ==>
          (r.peers[q].sent[i].path.vni, q) in n.subs)
  }

  /** The tuples a peer has for some paths. */
  ghost function TuplesFrom(p: PeerId, paths: set<Path>): set<Entry> {
    set x | x in paths :: Entry(x, Remote(p))
  }

  ghost function From(p: PeerId, paths: seq<Path>): set<Entry> {
    TuplesFrom(p, ToSet(paths))
  }

  /** The effect of dropping the routes `gone` of peer `p`, streams and calls aside. */
  ghost predicate Dropped(n: Node, r: Node, p: PeerId, gone: set<Entry>)
    requires p in n.peers
  {
    && r.peers.Keys == n.peers.Keys
    && r == n.(table := n.table - gone, peers := r.peers, calls := r.calls, lastWithdrawn := r.lastWithdrawn)
    && (forall q :: q in n.peers && q != p ==> r.peers[q] == n.peers[q].(sent := r.peers[q].sent))
    && r.peers[p] == n.peers[p].(received := n.peers[p].received - gone, sent := r.peers[p].sent)
    && (forall q :: q in n.peers ==> ToSubscribers(n, r, q))
  }

  lemma DistributeEffect(n: Node, action: byte, path: Path, from: PeerId)
    requires from in n.peers
    ensures var r := Distribute(n, action, path, from);
      OnlySends(n, r) && (forall q :: q in n.peers ==> ToSubscribers(n, r, q))
  {
  }

  /** At most the one tuple is added; the peers' own tables are left alone. */
  lemma {:induction false} AddReceivedEffect(n: Node, p: PeerId, path: Path)
    requires p in n.peers
    ensures var r := AddReceived(n, p, path);
      && r.peers.Keys == n.peers.Keys
      && r == n.(table := r.table, peers := r.peers, calls := r.calls)
      && (forall q :: q in n.peers ==> r.peers[q] == n.peers[q].(sent := r.peers[q].sent) && ToSubscribers(n, r, q))
      && (r.table == n.table ||
          (r.table == n.table + {Entry(path, Remote(p))} && !(path.hop.kind == STANDARD && AnnouncedAt(n, path.vni, path.dest))))
  {
    hide Distribute;
    DistributeEffect(n.(table := n.table + {Entry(path, Remote(p))}), ADD, path, p);
  }

  /** At most the one tuple goes; the peers' own tables are left alone. */
  lemma {:induction false} RemoveReceivedEffect(n: Node, p: PeerId, path: Path)
    requires p in n.peers
    ensures var r := RemoveReceived(n, p, path);
      && r.peers.Keys == n.peers.Keys
      && r == n.(table := n.table - {Entry(path, Remote(p))}, peers := r.peers, calls := r.calls, lastWithdrawn := r.lastWithdrawn)
      && r.lastWithdrawn == (if Entry(path, Remote(p)) in n.table then n.lastWithdrawn[path := p] else n.lastWithdrawn)
      && (forall q :: q in n.peers ==> r.peers[q] == n.peers[q].(sent := r.peers[q].sent) && ToSubscribers(n, r, q))
  {
    hide Distribute;
    hide HasSource;
    if Entry(path, Remote(p)) in n.table {
      DistributeEffect(n.(table := n.table - {Entry(path, Remote(p))}, lastWithdrawn := n.lastWithdrawn[path := p]), REMOVE, path, p);
    } else {
      assert n.table - {Entry(path, Remote(p))} == n.table;
    }
  }

  lemma {:induction false} DropRouteEffect(n: Node, p: PeerId, path: Path)
    requires p in n.peers
    ensures Dropped(n, DropRoute(n, p, path), p, {Entry(path, Remote(p))})
  {
    hide RemoveReceived;
    RemoveReceivedEffect(SetReceived(n, p, n.peers[p].received - {Entry(path, Remote(p))}), p, path);
  }

  lemma {:induction false} DroppedNothing(n: Node, p: PeerId)
    requires p in n.peers
    ensures Dropped(n, n, p, {})
  {
    assert n.table - {} == n.table && n.peers[p].received - {} == n.peers[p].received;
  }

  lemma {:induction false} DroppedCompose(n: Node, m: Node, r: Node, p: PeerId, a: set<Entry>, b: set<Entry>)
    requires p in n.peers && p in m.peers
    requires Dropped(n, m, p, a) && Dropped(m, r, p, b)
    ensures Dropped(n, r, p, a + b)
  {
    assert n.table - a - b == n.table - (a + b);
    assert n.peers[p].received - a - b == n.peers[p].received - (a + b);
  }

  lemma {:induction false} PurgeEffect(n: Node, p: PeerId, order: seq<Path>)
    requires p in n.peers
    ensures Dropped(n, Purge(n, p, order), p, From(p, order))
  {
    hide Dropped;
    hide DropRoute;
    if order == [] {
      DroppedNothing(n, p);
      assert From(p, order) == {};
    } else {
      var before, x := order[..|order| - 1], order[|order| - 1];
      var m := Purge(n, p, before);
      PurgeEffect(n, p, before);
      DropRouteEffect(m, p, x);
      DroppedCompose(n, m, DropRoute(m, p, x), p, From(p, before), {Entry(x, Remote(p))});
      assert order == before + [x];
      assert From(p, before) + {Entry(x, Remote(p))} == From(p, order);
    }
  }

  lemma {:induction false} DroppedKeepsOwned(n: Node, r: Node, p: PeerId, gone: set<Entry>)
    requires Owned(n) && p in n.peers
    requires Dropped(n, r, p, gone)
    ensures Owned(r)
  {
    forall e | e in r.table ensures e.source.Remote? && e.source.id in r.peers && e in r.peers[e.source.id].received {
      assert e in n.table && e in n.peers[e.source.id].received;
    }
    forall q, e | q in r.peers && e in r.peers[q].received ensures e.source == Remote(q) {
      assert e in n.peers[q].received;
    }
  }

  // Losing subscriptions

  ghost function FromAt(n: Node, p: PeerId, vnis: set<VNI>): set<Entry>
    requires p in n.peers
  {
    set e | e in n.peers[p].received && e.path.vni in vnis
  }

  ghost function Subscriptions(p: PeerId, vnis: set<VNI>): set<(VNI, PeerId)> {
    set v | v in vnis :: (v, p)
  }

  ghost predicate Left(n: Node, r: Node, p: PeerId, vnis: set<VNI>)
    requires p in n.peers
  {
    && r.subs == n.subs - Subscriptions(p, vnis)
    && Dropped(n, r.(subs := n.subs), p, FromAt(n, p, vnis))
  }

  lemma {:induction false} RemoveSubscriberEffect(n: Node, p: PeerId, vni: VNI, order: seq<Path>)
    requires Owned(n) && p in n.peers
    requires (vni, p) in n.subs
    requires Enumerates(order, ReceivedAt(n, p, vni))
    ensures Left(n, RemoveSubscriber(n, p, vni, order), p, {vni})
  {
    PurgeEffect(n, p, order);
    assert From(p, order) == FromAt(n, p, {vni}) by {
      forall e ensures e in From(p, order) <==> e in FromAt(n, p, {vni}) {
        if e in FromAt(n, p, {vni}) {
          assert e.source == Remote(p) && e.path in order;
        }
        if e in From(p, order) {
          assert e.path in ReceivedAt(n, p, vni);
          var e' :| e' in n.peers[p].received && e'.path.vni == vni && e'.path == e.path;
          assert e' == e;
        }
      }
    }
    assert Subscriptions(p, {vni}) == {(vni, p)};
    var r := RemoveSubscriber(n, p, vni, order);
    assert r.(subs := n.subs) == Purge(n, p, order);
  }

  lemma DroppedWiden(n: Node, r: Node, p: PeerId, gone: set<Entry>, subs: set<(VNI, PeerId)>)
    requires p in n.peers && Dropped(n, r, p, gone) && n.subs <= subs
    ensures Dropped(n.(subs := subs), r.(subs := subs), p, gone)
  {
  }

  lemma {:induction false} LeftCompose(n: Node, m: Node, r: Node, p: PeerId, a: set<VNI>, b: set<VNI>)
    requires p in n.peers && p in m.peers
    requires Left(n, m, p, a) && Left(m, r, p, b)
    ensures Left(n, r, p, a + b)
  {
    hide ToSubscribers;
    DroppedWiden(m, r.(subs := m.subs), p, FromAt(m, p, b), n.subs);
    DroppedCompose(n, m.(subs := n.subs), r.(subs := n.subs), p, FromAt(n, p, a), FromAt(m, p, b));
    assert FromAt(n, p, a) + FromAt(m, p, b) == FromAt(n, p, a + b);
    assert Subscriptions(p, a) + Subscriptions(p, b) == Subscriptions(p, a + b);
  }

  lemma {:induction false} LeftKeepsOwned(n: Node, r: Node, p: PeerId, vnis: set<VNI>)
    requires Owned(n) && p in n.peers
    requires Left(n, r, p, vnis)
    ensures Owned(r)
  {
    DroppedKeepsOwned(n, r.(subs := n.subs), p, FromAt(n, p, vnis));
  }

  lemma {:induction false} LastVNI(purges: PurgeOrder)
    requires purges != [] && Distinct(VNIsOf(purges))
    ensures var before, v := purges[..|purges| - 1], purges[|purges| - 1].0;
      && VNIsOf(purges) == VNIsOf(before) + [v]
      && Distinct(VNIsOf(before)) && v !in VNIsOf(before)
      && ToSet(VNIsOf(purges)) == ToSet(VNIsOf(before)) + {v}
  {
    var k := |purges| - 1;
    var before, v := purges[..k], purges[k].0;
    assert VNIsOf(purges) == VNIsOf(before) + [v];
    assert forall i :: 0 <= i < k ==> VNIsOf(before)[i] == VNIsOf(purges)[i] != VNIsOf(purges)[k];
  }

  lemma {:induction false} LeftNothing(n: Node, p: PeerId)
    requires p in n.peers
    ensures Left(n, n, p, {})
  {
    assert FromAt(n, p, {}) == {} && Subscriptions(p, {}) == {};
    assert n.table - {} == n.table && n.peers[p].received - {} == n.peers[p].received;
  }

  lemma {:induction false} RemoveSubscriptionsEffect(n: Node, p: PeerId, purges: PurgeOrder)
    requires Owned(n) && p in n.peers
    requires PurgeOrdersOk(n, p, purges)
    requires Distinct(VNIsOf(purges))
    requires forall v :: v in VNIsOf(purges) ==> (v, p) in n.subs
    ensures Left(n, RemoveSubscriptions(n, p, purges), p, ToSet(VNIsOf(purges)))
  {
    if purges == [] {
      LeftNothing(n, p);
      assert ToSet(VNIsOf(purges)) == {};
    } else {
      var before, last := purges[..|purges| - 1], purges[|purges| - 1];
      LastVNI(purges);
      RemoveSubscriptionsEffect(n, p, before);
      var m := RemoveSubscriptions(n, p, before);
      LeftKeepsOwned(n, m, p, ToSet(VNIsOf(before)));
      assert (last.0, p) in m.subs;
      RemoveSubscriberEffect(m, p, last.0, last.1);
      LeftCompose(n, m, RemoveSubscriptions(n, p, purges), p, ToSet(VNIsOf(before)), {last.0});
    }
  }

  /**
   * A peer that falls out of ESTABLISHED (or moves between other states) is in
   * no subscriber set; its routes in the VNIs it had subscribed to are gone
   * from both tables and every other tuple is where it was.
   */
  lemma {:induction false} ConnectionLost(n: Node, p: PeerId, state: ConnState, vnis: seq<VNI>, paths: seq<Path>, purges: PurgeOrder)
    requires Owned(n) && p in n.peers && CanSetState(n, p, state, vnis, paths, purges)
    requires state != n.peers[p].state && !state.Established?
    ensures var r := SetState(n, p, state, vnis, paths, purges);
      && Owned(r)
      && r.peers.Keys == n.peers.Keys
      && r.peers[p].state == state
      && (forall v, q :: (v, q) in r.subs <==> (v, q) in n.subs && q != p)
      && (forall e :: e in r.table <==> e in n.table && !(e.source == Remote(p) && (e.path.vni, p) in n.subs))
      && (forall e :: e in r.peers[p].received <==> e in n.peers[p].received && (e.path.vni, p) !in n.subs)
      && (forall q :: q in n.peers && q != p ==> r.peers[q].received == n.peers[q].received)
  {
    var n1 := n.(peers := n.peers[p := n.peers[p].(state := state)]);
    assert Owned(n1);
    var lost := SubscribedBy(n1, p);
    forall v | v in VNIsOf(purges) ensures (v, p) in n1.subs {
      assert v in lost;
    }
    RemoveSubscriptionsEffect(n1, p, purges);
    assert (ToSet(VNIsOf(purges))) == lost;
    var r := SetState(n, p, state, vnis, paths, purges);
    assert Left(n1, r, p, lost);
    LeftKeepsOwned(n1, r, p, lost);
    forall v ensures v in lost <==> (v, p) in n.subs {
      if (v, p) in n.subs {
        assert (v, p).1 == p;
      }
    }
    forall v, q ensures (v, q) in r.subs <==> (v, q) in n.subs && q != p {
      assert (v, q) in Subscriptions(p, lost) <==> v in lost && q == p;
    }
  }

  // Leaving for good

  lemma UnsubscribedKeepsOwned(n: Node, vni: VNI)
    requires Owned(n)
    ensures Owned(LocalUnsubscribe(n, vni))
  {
  }

  /** What the node's own unsubscriptions inside cleanup take out of its table. */
  ghost predicate GoneLocally(n: Node, vnis: set<VNI>, e: Entry) {
    e.path.vni in vnis && e.path.vni in n.mySubs && e.source.Remote? && e.source.id in n.members
  }

  lemma {:induction false} UnsubscribeAllEffect(n: Node, vnis: seq<VNI>)
    requires Owned(n)
    ensures var r := UnsubscribeAll(n, vnis);
      && Owned(r)
      && r.members == n.members && r.peers.Keys == n.peers.Keys
      && r.subs == n.subs
      && r.mySubs == n.mySubs - (ToSet(vnis))
      && (forall e :: e in r.table <==> e in n.table && !GoneLocally(n, ToSet(vnis), e))
  {
    if vnis != [] {
      var before, v := vnis[..|vnis| - 1], vnis[|vnis| - 1];
      UnsubscribeAllEffect(n, before);
      UnsubscribedKeepsOwned(UnsubscribeAll(n, before), v);
      assert vnis == before + [v];
      assert (ToSet(vnis)) == (ToSet(before)) + {v};
    }
  }

  lemma {:induction false} AllPresent(received: set<Entry>, p: PeerId, order: seq<Path>)
    requires From(p, order) <= received
    ensures PresentPrefix(received, p, order) == |order|
  {
    if order != [] {
      assert Entry(order[0], Remote(p)) in From(p, order);
      assert From(p, order[1..]) <= From(p, order);
      AllPresent(received, p, order[1..]);
    }
  }

  /** The early return of cleanup is unreachable: the loop does what it would do without the check. */
  lemma {:induction false} PurgeNeverStops(n: Node, p: PeerId, order: seq<Path>)
    requires p in n.peers && From(p, order) <= n.peers[p].received
    ensures PurgeWhilePresent(n, p, order) == Purge(n, p, order)
    ensures Dropped(n, PurgeWhilePresent(n, p, order), p, From(p, order))
  {
    AllPresent(n.peers[p].received, p, order);
    assert order[..|order|] == order;
    PurgeEffect(n, p, order);
  }

  /**
   * After cleanup neither table holds a route of the leaving peer. Other peers'
   * tuples stay, except where the node itself was subscribed to a VNI that the
   * leaving peer had subscribed to: cleanup ends that subscription of the node.
   */
  lemma {:induction false} CleanupRemovesExactly(n: Node, p: PeerId, vnis: seq<VNI>, order: seq<Path>)
    requires Owned(n) && Enabled(n, EvCleanup(p, vnis, order))
    ensures var r := Cleanup(n, p, vnis, order);
      && Owned(r)
      && r.peers.Keys == n.peers.Keys
      && r.peers[p].received == {}
      && r.subs == n.subs
      && (forall e :: e in r.table <==>
            e in n.table && e.source != Remote(p) && !GoneLocally(n, n.peers[p].subscribedVNIs, e))
  {
    var m := UnsubscribeAll(n, vnis);
    UnsubscribeAllEffect(n, vnis);
    assert (ToSet(vnis)) == n.peers[p].subscribedVNIs;
    assert From(p, order) == m.peers[p].received by {
      forall e ensures e in From(p, order) <==> e in m.peers[p].received {
        if e in From(p, order) {
          var e' :| e' in m.peers[p].received && e'.path == e.path;
          assert e' == e;
        }
        if e in m.peers[p].received {
          assert e.path in order;
        }
      }
    }
    PurgeNeverStops(m, p, order);
    var r := Cleanup(n, p, vnis, order);
    DroppedKeepsOwned(m, r, p, From(p, order));
    assert r.peers[p].received == {};
  }

  // Every step of every run

  lemma OnlySendsTransitive(n: Node, m: Node, r: Node)
    requires OnlySends(n, m) && OnlySends(m, r)
    ensures OnlySends(n, r)
  {
  }

  lemma {:induction false} SnapshotOnlySends(n: Node, p: PeerId, order: seq<Entry>)
    requires p in n.peers
    ensures OnlySends(n, SendSnapshot(n, p, order))
  {
    if order != [] {
      SnapshotOnlySends(n, p, order[..|order| - 1]);
    }
  }

  lemma {:induction false} SubscriptionsOnlySend(n: Node, p: PeerId, vnis: seq<VNI>)
    requires p in n.peers
    ensures OnlySends(n, SendSubscriptions(n, p, vnis))
  {
    if vnis != [] {
      SubscriptionsOnlySend(n, p, vnis[..|vnis| - 1]);
    }
  }

  lemma {:induction false} AnnouncementsOnlySend(n: Node, p: PeerId, paths: seq<Path>)
    requires p in n.peers
    ensures OnlySends(n, SendAnnouncements(n, p, paths))
  {
    if paths != [] {
      AnnouncementsOnlySend(n, p, paths[..|paths| - 1]);
    }
  }

  lemma MembersOnlySend(n: Node, m: Message, order: seq<PeerId>)
    requires forall p :: p in order ==> p in n.peers
    ensures OnlySends(n, SendToMembers(n, m, order))
  {
  }

  lemma {:induction false} EstablishingOnlySends(n: Node, p: PeerId, vnis: seq<VNI>, paths: seq<Path>, purges: PurgeOrder)
    requires p in n.peers
    ensures OnlySends(n.(peers := n.peers[p := n.peers[p].(state := Established)]), SetState(n, p, Established, vnis, paths, purges))
  {
    var n1 := n.(peers := n.peers[p := n.peers[p].(state := Established)]);
    if !n.peers[p].state.Established? {
      var n2 := SendSubscriptions(n1, p, vnis);
      SubscriptionsOnlySend(n1, p, vnis);
      AnnouncementsOnlySend(n2, p, paths);
      OnlySendsTransitive(n1, n2, SendAnnouncements(n2, p, paths));
    }
  }

  lemma {:induction false} UpdateKeepsOwned(n: Node, p: PeerId, action: byte, path: Path)
    requires Owned(n) && p in n.peers
    ensures Owned(RxUpdate(n, p, action, path))
  {
    hide AddReceived;
    hide DropRoute;
    if action == REMOVE {
      DropRouteEffect(n, p, path);
      DroppedKeepsOwned(n, DropRoute(n, p, path), p, {Entry(path, Remote(p))});
    } else {
      AddReceivedEffect(SetReceived(n, p, n.peers[p].received + {Entry(path, Remote(p))}), p, path);
    }
  }

  lemma {:induction false} SetStateKeepsOwned(n: Node, p: PeerId, state: ConnState, vnis: seq<VNI>, paths: seq<Path>, purges: PurgeOrder)
    requires Owned(n) && p in n.peers && CanSetState(n, p, state, vnis, paths, purges)
    ensures Owned(SetState(n, p, state, vnis, paths, purges))
  {
    var n1 := n.(peers := n.peers[p := n.peers[p].(state := state)]);
    if state == n.peers[p].state {
      assert n1.peers == n.peers;
    } else if state.Established? {
      EstablishingOnlySends(n, p, vnis, paths, purges);
    } else {
      ConnectionLost(n, p, state, vnis, paths, purges);
    }
  }

  lemma {:induction false} SubscribeKeepsOwned(n: Node, p: PeerId, vni: VNI, snapshot: seq<Entry>)
    requires Owned(n) && p in n.peers
    ensures Owned(RxSubscribe(n, p, vni, snapshot))
  {
    hide SendSnapshot;
    var n1 := Joined(n, p, vni);
    SnapshotOnlySends(n1, p, snapshot);
  }

  lemma {:induction false} UnsubscribeKeepsOwned(n: Node, p: PeerId, vni: VNI, paths: seq<Path>)
    requires Owned(n) && p in n.peers && Enumerates(paths, ReceivedAt(n, p, vni))
    ensures Owned(RxUnsubscribe(n, p, vni, paths))
  {
    hide Purge;
    if (vni, p) in n.subs {
      RemoveSubscriberEffect(n, p, vni, paths);
      LeftKeepsOwned(n, RemoveSubscriber(n, p, vni, paths), p, {vni});
    }
  }

  /** Sending to the members leaves both kinds of table alone. */
  lemma {:induction false} MembersKeepOwned(n: Node, m: Message, order: seq<PeerId>)
    requires Owned(n) && forall p :: p in order ==> p in n.peers
    ensures Owned(SendToMembers(n, m, order))
  {
    hide SendToMembers;
    MembersOnlySend(n, m, order);
  }

  lemma {:induction false} OwnedStep(n: Node, e: Event)
    requires Owned(n) && Enabled(n, e)
    ensures Owned(Step(n, e))
  {
    hide SetState;
    hide RxUpdate;
    hide Cleanup;
    hide RxSubscribe;
    hide RxUnsubscribe;
    hide LocalUnsubscribe;
    hide SendToMembers;
    hide CanSetState;
    match e
    case EvHello(p, interval, isServer, purges) =>
      var n1 := NoteHello(n, p, interval, isServer);
      assert Owned(n1);
      SetStateKeepsOwned(n1, p, HelloReceived, [], [], purges);
    case EvSetState(p, state, vnis, paths, purges) => SetStateKeepsOwned(n, p, state, vnis, paths, purges);
    case EvUpdate(p, action, path) => UpdateKeepsOwned(n, p, action, path);
    case EvSubscribe(p, vni, snapshot) => SubscribeKeepsOwned(n, p, vni, snapshot);
    case EvUnsubscribe(p, vni, paths) => UnsubscribeKeepsOwned(n, p, vni, paths);
    case EvCleanup(p, vnis, paths) => CleanupRemovesExactly(n, p, vnis, paths);
    case EvLocalSubscribe(vni, order) => MembersKeepOwned(n.(mySubs := n.mySubs + {vni}), Subscribe(vni), order);
    case EvLocalUnsubscribe(vni) => UnsubscribedKeepsOwned(n, vni);
    case EvAnnounce(path, order) =>
      MembersKeepOwned(n.(announced := n.announced + {path}, announcedHops := n.announcedHops + {path}), Update(ADD, path), order);
    case EvWithdraw(path, order) =>
      MembersKeepOwned(n.(announced := n.announced - {path}, announcedHops := n.announcedHops - {path}), Update(REMOVE, path), order);
    case _ =>
  }

  lemma {:induction false} OwnedInEveryRun(es: seq<Event>)
    ensures Owned(After(InitNode, es))
  {
    if es != [] {
      OwnedInEveryRun(es[..|es| - 1]);
      var mid, e := After(InitNode, es[..|es| - 1]), es[|es| - 1];
      if Enabled(mid, e) {
        OwnedStep(mid, e);
      }
    }
  }
}
