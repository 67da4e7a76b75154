/**
 * One server and one of its clients, connected by a FIFO byte stream, the
 * client's reader goroutine that sorts messages into one channel per type, and
 * the select loop that empties the channels in any order it likes.
 */
module EndToEnd {
  import opened Types
  import opened Engine
  import opened Ownership
  import opened Views

  /**
   * `s` is the client as the server's peer, `q` the server as the client's peer.
   * `taken` messages of the server's stream have been read from the connection;
   * `queue` is the client's rxUpdate channel. `cuts` is auxiliary: what was
   * under way when the client last unsubscribed from a VNI, and how much the
   * server had sent by then. `missed` is auxiliary: what the server's
   * subscribers have missed (Views.MissedAfter).
   */
  datatype Link = Link(
    server: Node, s: PeerId, client: Node, q: PeerId, taken: nat, queue: seq<Message>, cuts: map<VNI, Cut>, missed: Missed)

  datatype Cut = Cut(pending: seq<Message>, sent: nat)

  datatype LinkEvent =
    | AtServer(e: Event)
    | Read
    | ProcessUpdate
    | AtClient(e: Event)

  ghost predicate LinkOk(l: Link) {
    l.s in l.server.peers && l.q in l.client.peers && l.taken <= |l.server.peers[l.s].sent|
  }

  /** The client's other work: its own operations, the handshake and the resets of peers, and what its other peers send. */
  ghost predicate OtherWork(n: Node, e: Event, q: PeerId) {
    || e.EvSendControl? || (e.EvSetState? && e.state.Established?) || e.EvConnect? || e.EvForget?
    || ((e.EvHello? || e.EvSetState?) && (e.p != q || SubscribedBy(n, q) == {}))
    || e.EvLocalSubscribe? || e.EvLocalUnsubscribe? || e.EvAnnounce? || e.EvWithdraw? || e.EvProbe?
    || (e.EvUpdate? && e.p != q)
  }

  /** The event takes the routes of its VNI out of the client's table for the server. */
  predicate ClearsReceived(n: Node, e: Event, q: PeerId)
    requires q in n.peers
  {
    e.EvLocalUnsubscribe? && e.vni in n.mySubs && q in n.members && n.peers[q].direction.Outgoing?
  }

  ghost predicate LinkEnabled(l: Link, e: LinkEvent)
    requires LinkOk(l)
  {
    match e
    case AtServer(e) => FromPeer(e) && Enabled(l.server, e)
    case Read => l.taken < |l.server.peers[l.s].sent|
    case ProcessUpdate => l.queue != [] && l.queue[0].Update? && Enabled(l.client, EvUpdate(l.q, l.queue[0].action, l.queue[0].path))
    case AtClient(e) => OtherWork(l.client, e, l.q) && Enabled(l.client, e)
  }

  ghost function LinkStep(l: Link, e: LinkEvent): Link
    requires LinkOk(l) && LinkEnabled(l, e)
  {
    match e
    case AtServer(e) => l.(server := Step(l.server, e), missed := MissedAfter(l.server, e, l.missed))
    case Read =>
      var m := l.server.peers[l.s].sent[l.taken];
      l.(taken := l.taken + 1, queue := if m.Update? then l.queue + [m] else l.queue)
    case ProcessUpdate =>
      l.(client := Step(l.client, EvUpdate(l.q, l.queue[0].action, l.queue[0].path)), queue := l.queue[1..])
    case AtClient(e) =>
      l.(client := Step(l.client, e),
         cuts := if ClearsReceived(l.client, e, l.q) then l.cuts[e.vni := Cut(Pending(l), |l.server.peers[l.s].sent|)] else l.cuts)
  }

  /** Whether the client's receivedRoutes table holds `path` from the server. */
  ghost predicate Received(l: Link, path: Path)
    requires LinkOk(l)
  {
    Entry(path, Remote(l.q)) in l.client.peers[l.q].received
  }

  /** The UPDATEs still in the channel or on the wire. */
  ghost function Pending(l: Link): seq<Message>
    requires LinkOk(l)
  {
    l.queue + l.server.peers[l.s].sent[l.taken..]
  }

  ghost predicate CutsOk(l: Link) {
    l.s in l.server.peers && forall v :: v in l.cuts ==> l.cuts[v].sent <= |l.server.peers[l.s].sent|
  }

  /** What counts for the client's routes in a VNI: everything sent, or what was under way when it unsubscribed and all since. */
  ghost function Effective(l: Link, vni: VNI): seq<Message>
    requires CutsOk(l)
  {
    var sent := l.server.peers[l.s].sent;
    if vni in l.cuts then l.cuts[vni].pending + sent[l.cuts[vni].sent..] else sent
  }

  /** Applying what is pending to what the client holds gives the replay of what counts. */
  ghost predicate InStep(l: Link) {
    && LinkOk(l) && CutsOk(l)
    && forall path :: Replay(Received(l, path), Pending(l), path) == Replay(false, Effective(l, path.vni), path)
  }

  // Replay

  lemma {:induction false} ReplayConcat(base: bool, xs: seq<Message>, ys: seq<Message>, path: Path)
    ensures Replay(base, xs + ys, path) == Replay(Replay(base, xs, path), ys, path)
  {
    if ys == [] {
      assert xs + ys == xs;
    } else {
      var k := |ys| - 1;
      ReplayConcat(base, xs, ys[..k], path);
      assert xs + ys == (xs + ys[..k]) + [ys[k]];
      ReplayAppend(base, xs + ys[..k], ys[k], path);
    }
  }

  lemma {:induction false} ReplaySkipsOthers(base: bool, m: Message, ys: seq<Message>, path: Path)
    requires !m.Update?
    ensures Replay(base, [m] + ys, path) == Replay(base, ys, path)
  {
    ReplayConcat(base, [m], ys, path);
  }

  lemma {:induction false} ReplayMiddle(base: bool, xs: seq<Message>, m: Message, ys: seq<Message>, path: Path)
    requires !m.Update?
    ensures Replay(base, xs + ([m] + ys), path) == Replay(base, xs + ys, path)
  {
    ReplayConcat(base, xs, [m] + ys, path);
    ReplaySkipsOthers(Replay(base, xs, path), m, ys, path);
    ReplayConcat(base, xs, ys, path);
  }

  // The server's stream only grows

  /**
   * A step sends peer `q` UPDATEs only for VNIs it is subscribed to, before or
   * after; and only a new subscription moves the mark from which a view counts.
   */
  ghost predicate Grown(n: Node, r: Node, q: PeerId, joined: set<(VNI, PeerId)>)
    requires q in n.peers
  {
    && q in r.peers
    && ToSubscribers(n.(subs := n.subs + joined), r, q)
    && joined <= r.subs <= n.subs + joined
    && (forall v :: (v, q) !in joined && v in n.peers[q].since ==> v in r.peers[q].since && r.peers[q].since[v] == n.peers[q].since[v])
    && (forall v :: (v, q) in joined ==> v in r.peers[q].since && r.peers[q].since[v] == |n.peers[q].sent|)
  }

  lemma {:induction false} SetStateGrown(n: Node, p: PeerId, state: ConnState, vnis: seq<VNI>, paths: seq<Path>, purges: PurgeOrder, q: PeerId)
    requires Owned(n) && PureServer(n) && p in n.peers && q in n.peers && CanSetState(n, p, state, vnis, paths, purges)
    ensures Grown(n, SetState(n, p, state, vnis, paths, purges), q, {})
  {
    var n1 := n.(peers := n.peers[p := n.peers[p].(state := state)]);
    if state.Established? {
      EnumeratesNothing(vnis, n.mySubs);
      EnumeratesNothing(paths, n.announcedHops);
    } else if state != n.peers[p].state {
      assert Owned(n1);
      forall v | v in VNIsOf(purges) ensures (v, p) in n1.subs {
        assert v in SubscribedBy(n1, p);
      }
      RemoveSubscriptionsEffect(n1, p, purges);
      assert ToSubscribers(n1, RemoveSubscriptions(n1, p, purges).(subs := n1.subs), q);
    }
  }

  lemma {:induction false} PurgeGrown(n: Node, p: PeerId, order: seq<Path>, q: PeerId)
    requires p in n.peers && q in n.peers
    ensures Grown(n, Purge(n, p, order), q, {})
  {
    PurgeEffect(n, p, order);
    assert ToSubscribers(n, Purge(n, p, order), q);
  }

  lemma {:induction false} SnapshotMessages(n: Node, p: PeerId, order: seq<Entry>, vni: VNI)
    requires p in n.peers
    requires forall e :: e in order ==> e.path.vni == vni
    ensures var r := SendSnapshot(n, p, order);
      && n.peers[p].sent <= r.peers[p].sent
      && (forall i :: |n.peers[p].sent| <= i < |r.peers[p].sent| ==>
            r.peers[p].sent[i].Update? && r.peers[p].sent[i].path.vni == vni)
  {
    if order != [] {
      SnapshotMessages(n, p, order[..|order| - 1], vni);
      assert order[|order| - 1] in order;
    }
  }

  lemma {:induction false} SubscribeGrown(n: Node, p: PeerId, vni: VNI, snapshot: seq<Entry>, q: PeerId)
    requires Enabled(n, EvSubscribe(p, vni, snapshot)) && q in n.peers
    ensures Grown(n, RxSubscribe(n, p, vni, snapshot), q, if (vni, p) in n.subs then {} else {(vni, p)})
  {
    if (vni, p) !in n.subs {
      var n1 := Joined(n, p, vni);
      forall e | e in snapshot ensures e.path.vni == vni {
        assert e in SnapshotAt(n, vni);
      }
      SnapshotMessages(n1, p, snapshot, vni);
      SnapshotLeavesOthers(n1, p, snapshot);
      SnapshotOnlySends(n1, p, snapshot);
    }
  }

  lemma {:induction false} UpdateGrown(n: Node, p: PeerId, action: byte, path: Path, q: PeerId)
    requires p in n.peers && q in n.peers
    ensures Grown(n, RxUpdate(n, p, action, path), q, {})
  {
    hide AddReceived;
    hide DropRoute;
    if action == REMOVE {
      DropRouteEffect(n, p, path);
      assert ToSubscribers(n, DropRoute(n, p, path), q);
    } else {
      var m := SetReceived(n, p, n.peers[p].received + {Entry(path, Remote(p))});
      AddReceivedEffect(m, p, path);
      assert ToSubscribers(m, AddReceived(m, p, path), q);
    }
  }

  ghost function FreshSubscription(n: Node, e: Event): set<(VNI, PeerId)> {
    if (e.EvSubscribe? || e.EvSubscribeEarly?) && (e.vni, e.p) !in n.subs then {(e.vni, e.p)} else {}
  }

  lemma {:induction false} CleanupGrown(n: Node, p: PeerId, vnis: seq<VNI>, paths: seq<Path>, q: PeerId)
    requires Owned(n) && PureServer(n) && p in n.peers && q in n.peers
    ensures Grown(n, Cleanup(n, p, vnis, paths), q, {})
  {
    hide Purge;
    NothingToUnsubscribe(n, vnis);
    PurgeGrown(n, p, paths[..PresentPrefix(n.peers[p].received, p, paths)], q);
  }

  lemma {:induction false} HelloGrown(n: Node, p: PeerId, interval: nat, isServer: bool, purges: PurgeOrder, q: PeerId)
    requires Owned(n) && PureServer(n) && q in n.peers && Enabled(n, EvHello(p, interval, isServer, purges))
    ensures Grown(n, Step(n, EvHello(p, interval, isServer, purges)), q, {})
  {
    hide SetState;
    hide CanSetState;
    var n1 := NoteHello(n, p, interval, isServer);
    assert Owned(n1);
    SetStateGrown(n1, p, HelloReceived, [], [], purges, q);
  }

  lemma {:induction false} UnsubscribeGrown(n: Node, p: PeerId, vni: VNI, paths: seq<Path>, q: PeerId)
    requires p in n.peers && q in n.peers
    ensures Grown(n, RxUnsubscribe(n, p, vni, paths), q, {})
  {
    hide Purge;
    PurgeGrown(n, p, paths, q);
  }

  /** Events that send no UPDATE. */
  lemma SilentGrown(n: Node, e: Event, q: PeerId)
    requires Enabled(n, e) && q in n.peers && (e.EvSendControl? || e.EvConnect? || e.EvForget? || e.EvSubscribeEarly?)
    ensures Grown(n, Step(n, e), q, FreshSubscription(n, e))
  {
  }

  lemma {:induction false} StreamsGrow(n: Node, e: Event, q: PeerId, missed: Missed)
    requires ServerInv(n, missed) && Enabled(n, e) && FromPeer(e) && q in n.peers
    ensures Grown(n, Step(n, e), q, FreshSubscription(n, e))
  {
    hide Grown;
    hide SetState;
    hide RxUpdate;
    hide RxSubscribe;
    hide RxUnsubscribe;
    hide Cleanup;
    hide CanSetState;
    hide Distributes;
    hide Told;
    match e
    case EvHello(p, interval, isServer, purges) => HelloGrown(n, p, interval, isServer, purges, q);
    case EvSetState(p, state, vnis, paths, purges) => SetStateGrown(n, p, state, vnis, paths, purges, q);
    case EvUpdate(p, action, path) => UpdateGrown(n, p, action, path, q);
    case EvSubscribe(p, vni, snapshot) => SubscribeGrown(n, p, vni, snapshot, q);
    case EvUnsubscribe(p, vni, paths) => UnsubscribeGrown(n, p, vni, paths, q);
    case EvCleanup(p, vnis, paths) => CleanupGrown(n, p, vnis, paths, q);
    case _ => SilentGrown(n, e, q);
  }

  // The client's table keeps in step

  lemma {:induction false} OthersUpdateKeepsReceived(n: Node, p: PeerId, action: byte, path: Path, q: PeerId)
    requires p in n.peers && q in n.peers && p != q
    ensures q in RxUpdate(n, p, action, path).peers && RxUpdate(n, p, action, path).peers[q].received == n.peers[q].received
  {
    hide AddReceived;
    hide DropRoute;
    if action == REMOVE {
      DropRouteEffect(n, p, path);
    } else {
      AddReceivedEffect(SetReceived(n, p, n.peers[p].received + {Entry(path, Remote(p))}), p, path);
    }
  }

  lemma {:induction false} RemovalsKeepReceived(n: Node, p: PeerId, purges: PurgeOrder, q: PeerId)
    requires p in n.peers && q in n.peers && (p != q || purges == [])
    ensures q in RemoveSubscriptions(n, p, purges).peers
    ensures RemoveSubscriptions(n, p, purges).peers[q].received == n.peers[q].received
  {
    if purges != [] {
      var before, last := purges[..|purges| - 1], purges[|purges| - 1];
      RemovalsKeepReceived(n, p, before, q);
      PurgeEffect(RemoveSubscriptions(n, p, before), p, last.1);
    }
  }

  lemma {:induction false} StateChangeKeepsReceived(
      n: Node, p: PeerId, state: ConnState, vnis: seq<VNI>, paths: seq<Path>, purges: PurgeOrder, q: PeerId)
    requires p in n.peers && q in n.peers && CanSetState(n, p, state, vnis, paths, purges)
    requires state.Established? || p != q || SubscribedBy(n, q) == {}
    ensures var r := SetState(n, p, state, vnis, paths, purges);
      q in r.peers && r.peers[q].received == n.peers[q].received
  {
    if state.Established? {
      EstablishingOnlySends(n, p, vnis, paths, purges);
    } else if state != n.peers[p].state {
      var n1 := n.(peers := n.peers[p := n.peers[p].(state := state)]);
      assert SubscribedBy(n1, p) == SubscribedBy(n, p);
      EnumeratesNothing(VNIsOf(purges), SubscribedBy(n1, p));
      assert |VNIsOf(purges)| == |purges|;
      RemovalsKeepReceived(n1, p, purges, q);
    }
  }

  lemma {:induction false} OwnWorkKeepsReceived(n: Node, e: Event, q: PeerId)
    requires Enabled(n, e) && (e.EvLocalSubscribe? || e.EvAnnounce? || e.EvWithdraw?) && q in n.peers
    ensures q in Step(n, e).peers && Step(n, e).peers[q].received == n.peers[q].received
  {
    hide SendToMembers;
    match e
    case EvLocalSubscribe(vni, order) =>
      MembersOnlySend(n.(mySubs := n.mySubs + {vni}), Subscribe(vni), order);
    case EvAnnounce(path, order) =>
      MembersOnlySend(n.(announced := n.announced + {path}, announcedHops := n.announcedHops + {path}), Update(ADD, path), order);
    case EvWithdraw(path, order) =>
      MembersOnlySend(n.(announced := n.announced - {path}, announcedHops := n.announcedHops - {path}), Update(REMOVE, path), order);
  }

  lemma {:induction false} OtherWorkKeepsReceived(n: Node, e: Event, q: PeerId)
    requires Enabled(n, e) && OtherWork(n, e, q) && q in n.peers
    ensures q in Step(n, e).peers
    ensures Step(n, e).peers[q].received ==
      if ClearsReceived(n, e, q) then (set x | x in n.peers[q].received && x.path.vni != e.vni) else n.peers[q].received
  {
    hide SetState;
    hide RxUpdate;
    hide CanSetState;
    hide Distributes;
    hide LocalSubscribe;
    hide Announce;
    hide Withdraw;
    match e
    case EvHello(p, interval, isServer, purges) =>
      var n1 := NoteHello(n, p, interval, isServer);
      assert SubscribedBy(n1, q) == SubscribedBy(n, q);
      StateChangeKeepsReceived(n1, p, HelloReceived, [], [], purges, q);
    case EvSetState(p, state, vnis, paths, purges) => StateChangeKeepsReceived(n, p, state, vnis, paths, purges, q);
    case EvUpdate(p, action, path) => OthersUpdateKeepsReceived(n, p, action, path, q);
    case EvLocalSubscribe(_, _) => OwnWorkKeepsReceived(n, e, q);
    case EvAnnounce(_, _) => OwnWorkKeepsReceived(n, e, q);
    case EvWithdraw(_, _) => OwnWorkKeepsReceived(n, e, q);
    case _ =>
  }

  /** processRxUpdate applies one UPDATE to receivedRoutes; a duplicate ADD and an absent REMOVE change nothing. */
  lemma {:induction false} ProcessingApplies(n: Node, q: PeerId, action: byte, path: Path, x: Path)
    requires q in n.peers
    ensures var r := RxUpdate(n, q, action, path);
      && q in r.peers
      && (Entry(x, Remote(q)) in r.peers[q].received <==>
            Replay(Entry(x, Remote(q)) in n.peers[q].received, [Update(action, path)], x))
  {
    hide AddReceived;
    hide DropRoute;
    if action == REMOVE {
      DropRouteEffect(n, q, path);
    } else {
      AddReceivedEffect(SetReceived(n, q, n.peers[q].received + {Entry(path, Remote(q))}), q, path);
    }
  }

  lemma {:induction false} InStepServer(l: Link, e: Event)
    requires InStep(l) && ServerInv(l.server, l.missed) && FromPeer(e) && Enabled(l.server, e)
    ensures InStep(LinkStep(l, AtServer(e)))
  {
    hide ServerInv;
    var r := LinkStep(l, AtServer(e));
    StreamsGrow(l.server, e, l.s, l.missed);
    hide Step;
    hide Enabled;
    hide Replay;
    hide MissedAfter;
    var was, now := l.server.peers[l.s].sent, r.server.peers[l.s].sent;
    var more := now[|was|..];
    assert now == was + more;
    assert now[l.taken..] == was[l.taken..] + more;
    forall path ensures Replay(Received(r, path), Pending(r), path) == Replay(false, Effective(r, path.vni), path) {
      assert Pending(r) == Pending(l) + more;
      EffectiveGrows(l, r, path.vni, more);
      ReplayConcat(Received(l, path), Pending(l), more, path);
      ReplayConcat(false, Effective(l, path.vni), more, path);
    }
  }

  lemma {:induction false} EffectiveGrows(l: Link, r: Link, vni: VNI, more: seq<Message>)
    requires CutsOk(l) && CutsOk(r) && r.s == l.s && r.cuts == l.cuts
    requires r.server.peers[r.s].sent == l.server.peers[l.s].sent + more
    ensures Effective(r, vni) == Effective(l, vni) + more
  {
    if vni in l.cuts {
      var k := l.cuts[vni].sent;
      assert r.server.peers[r.s].sent[k..] == l.server.peers[l.s].sent[k..] + more;
    }
  }

  lemma {:induction false} InStepRead(l: Link)
    requires InStep(l) && LinkEnabled(l, Read)
    ensures InStep(LinkStep(l, Read))
  {
    var r := LinkStep(l, Read);
    var sent := l.server.peers[l.s].sent;
    var m := sent[l.taken];
    assert sent[l.taken..] == [m] + sent[l.taken + 1..];
    forall path ensures Replay(Received(r, path), Pending(r), path) == Replay(false, Effective(r, path.vni), path) {
      assert Effective(r, path.vni) == Effective(l, path.vni);
      if m.Update? {
        assert Pending(r) == Pending(l);
      } else {
        ReplayMiddle(Received(l, path), l.queue, m, sent[l.taken + 1..], path);
      }
    }
  }

  lemma UpdateIsStep(n: Node, q: PeerId, action: byte, path: Path)
    requires Enabled(n, EvUpdate(q, action, path))
    ensures q in n.peers && Step(n, EvUpdate(q, action, path)) == RxUpdate(n, q, action, path)
  {
  }

  lemma {:induction false} InStepProcess(l: Link)
    requires InStep(l) && LinkEnabled(l, ProcessUpdate)
    ensures InStep(LinkStep(l, ProcessUpdate))
  {
    hide Enabled;
    hide Step;
    hide RxUpdate;
    hide Replay;
    var m, rest := l.queue[0], l.queue[1..] + l.server.peers[l.s].sent[l.taken..];
    var r := LinkStep(l, ProcessUpdate);
    UpdateIsStep(l.client, l.q, m.action, m.path);
    ProcessingApplies(l.client, l.q, m.action, m.path, m.path);
    assert Pending(l) == [m] + rest && Pending(r) == rest && m == Update(m.action, m.path);
    forall path ensures Replay(Received(r, path), Pending(r), path) == Replay(false, Effective(r, path.vni), path) {
      ProcessingApplies(l.client, l.q, m.action, m.path, path);
      ReplayConcat(Received(l, path), [m], rest, path);
      assert Effective(r, path.vni) == Effective(l, path.vni);
    }
  }

  lemma {:induction false} InStepClient(l: Link, e: Event)
    requires InStep(l) && LinkEnabled(l, AtClient(e))
    ensures InStep(LinkStep(l, AtClient(e)))
  {
    OtherWorkKeepsReceived(l.client, e, l.q);
    var r := LinkStep(l, AtClient(e));
    hide Step;
    hide Enabled;
    var sent := l.server.peers[l.s].sent;
    assert Pending(r) == Pending(l);
    forall path ensures Replay(Received(r, path), Pending(r), path) == Replay(false, Effective(r, path.vni), path) {
      if ClearsReceived(l.client, e, l.q) && path.vni == e.vni {
        assert sent[|sent|..] == [] && Effective(r, path.vni) == Pending(l) + [];
        assert Pending(l) + [] == Pending(l);
      } else {
        assert Effective(r, path.vni) == Effective(l, path.vni);
      }
    }
  }

  lemma {:induction false} InStepStep(l: Link, e: LinkEvent)
    requires InStep(l) && ServerInv(l.server, l.missed) && LinkEnabled(l, e)
    ensures InStep(LinkStep(l, e)) && ServerInv(LinkStep(l, e).server, LinkStep(l, e).missed)
  {
    match e
    case AtServer(e) =>
      ServerStep(l.server, e, l.missed);
      InStepServer(l, e);
    case Read => InStepRead(l);
    case ProcessUpdate => InStepProcess(l);
    case AtClient(e) => InStepClient(l, e);
  }

  // Runs of the link

  /** The link right after the server accepted the connection of `s`. */
  ghost function Opened(past: seq<Event>, s: PeerId, interval: nat, client: Node, q: PeerId): Link {
    Link(After(InitNode, past + [EvConnect(s, Incoming, interval)]), s, client, q, 0, [], map[], MissedIn(past + [EvConnect(s, Incoming, interval)]))
  }

  /** A pure server's past in which `s` did not exist, and a client that has received nothing yet. */
  ghost predicate CanOpen(past: seq<Event>, s: PeerId, client: Node, q: PeerId) {
    && (forall e :: e in past ==> FromPeer(e))
    && s !in After(InitNode, past).peers
    && q in client.peers && client.peers[q].received == {}
  }

  lemma {:induction false} OpenedInStep(past: seq<Event>, s: PeerId, interval: nat, client: Node, q: PeerId)
    requires CanOpen(past, s, client, q)
    ensures var l := Opened(past, s, interval, client, q);
      && InStep(l) && ServerInv(l.server, l.missed)
      && l.server.peers[s].sent == []
  {
    var es := past + [EvConnect(s, Incoming, interval)];
    ServerInvInEveryRun(es);
    assert es[..|es| - 1] == past;
    assert Pending(Opened(past, s, interval, client, q)) == [];
  }

  ghost function LinkAfter(l: Link, es: seq<LinkEvent>): Link
    decreases |es|
  {
    if es == [] then l
    else
      var mid := LinkAfter(l, es[..|es| - 1]);
      var e := es[|es| - 1];
      if LinkOk(mid) && LinkEnabled(mid, e) then LinkStep(mid, e) else mid
  }

  /**
   * In every run and under every schedule of the client's select loop, the
   * client's receivedRoutes followed by the UPDATEs still under way equal the
   * replay of everything the server has sent or, for a VNI the client has
   * unsubscribed from, of what was under way then and everything since.
   */
  lemma {:induction false} ClientStaysInStep(past: seq<Event>, s: PeerId, interval: nat, client: Node, q: PeerId, es: seq<LinkEvent>)
    requires CanOpen(past, s, client, q)
    ensures var l := LinkAfter(Opened(past, s, interval, client, q), es);
      InStep(l) && ServerInv(l.server, l.missed) && l.s == s && l.q == q
  {
    if es == [] {
      OpenedInStep(past, s, interval, client, q);
    } else {
      ClientStaysInStep(past, s, interval, client, q, es[..|es| - 1]);
      var mid := LinkAfter(Opened(past, s, interval, client, q), es[..|es| - 1]);
      if LinkEnabled(mid, es[|es| - 1]) {
        InStepStep(mid, es[|es| - 1]);
      }
    }
  }

  // One subscription

  /** Every UPDATE in the stream belongs to a subscription that is still running. */
  ghost predicate FirstSubscription(n: Node, s: PeerId)
    requires s in n.peers
  {
    forall i :: 0 <= i < |n.peers[s].sent| && n.peers[s].sent[i].Update? ==>
      var v := n.peers[s].sent[i].path.vni;
      (v, s) in n.subs && v in n.peers[s].since && n.peers[s].since[v] <= i
  }

  lemma {:induction false} FirstSubscriptionStep(n: Node, e: Event, s: PeerId, missed: Missed)
    requires ServerInv(n, missed) && Enabled(n, e) && FromPeer(e) && s in n.peers && FirstSubscription(n, s)
    requires forall v :: (v, s) in n.subs ==> (v, s) in Step(n, e).subs
    ensures s in Step(n, e).peers && FirstSubscription(Step(n, e), s)
  {
    StreamsGrow(n, e, s, missed);
    var r := Step(n, e);
    forall i | 0 <= i < |r.peers[s].sent| && r.peers[s].sent[i].Update?
      ensures var v := r.peers[s].sent[i].path.vni;
        (v, s) in r.subs && v in r.peers[s].since && r.peers[s].since[v] <= i
    {
      var v := r.peers[s].sent[i].path.vni;
      if i < |n.peers[s].sent| {
        assert r.peers[s].sent[i] == n.peers[s].sent[i];
      } else if (v, s) !in FreshSubscription(n, e) {
        assert Served(n, v, s, missed);
      }
    }
  }

  lemma {:induction false} ReplayWithoutMention(base: bool, msgs: seq<Message>, path: Path)
    requires forall i :: 0 <= i < |msgs| && msgs[i].Update? ==> msgs[i].path != path
    ensures Replay(base, msgs, path) == base
  {
    if msgs != [] {
      ReplayWithoutMention(base, msgs[..|msgs| - 1], path);
    }
  }

  /** In the run `es` the client never announces `path`. */
  ghost predicate NeverAnnounces(l: Link, es: seq<LinkEvent>, path: Path) {
    forall e :: e in es ==> !(e.AtServer? && e.e.EvUpdate? && e.e.p == l.s && e.e.action == ADD && e.e.path == path)
  }

  lemma {:induction false} ForeignOverLink(
      past: seq<Event>, s: PeerId, interval: nat, client: Node, q: PeerId, es: seq<LinkEvent>, path: Path)
    requires CanOpen(past, s, client, q) && NeverAdds(past, s, path)
    requires NeverAnnounces(Opened(past, s, interval, client, q), es, path)
    ensures Foreign(LinkAfter(Opened(past, s, interval, client, q), es).server, s, path)
  {
    var l0 := Opened(past, s, interval, client, q);
    if es == [] {
      ForeignInEveryRun(past + [EvConnect(s, Incoming, interval)], s, path);
    } else {
      var before, e := es[..|es| - 1], es[|es| - 1];
      assert e in es;
      ForeignOverLink(past, s, interval, client, q, before, path);
      ClientStaysInStep(past, s, interval, client, q, before);
      var mid := LinkAfter(l0, before);
      if LinkEnabled(mid, e) && e.AtServer? {
        ForeignStep(mid.server, e.e, s, path);
      }
    }
  }

  /** What counted for the VNI before the subscription that is running now. */
  ghost function Before(l: Link, vni: VNI): seq<Message>
    requires CutsOk(l) && Marked(l, vni)
  {
    var sent, mark := l.server.peers[l.s].sent, l.server.peers[l.s].since[vni];
    if vni in l.cuts then l.cuts[vni].pending + sent[l.cuts[vni].sent..mark] else sent[..mark]
  }

  /** The subscription that is running began after the client's last unsubscription. */
  ghost predicate Marked(l: Link, vni: VNI) {
    && l.s in l.server.peers && vni in l.server.peers[l.s].since
    && l.server.peers[l.s].since[vni] <= |l.server.peers[l.s].sent|
    && (vni in l.cuts ==> l.cuts[vni].sent <= l.server.peers[l.s].since[vni])
  }

  lemma {:induction false} BeforeAndSince(l: Link, path: Path)
    requires CutsOk(l) && Marked(l, path.vni)
    ensures var sent, mark := l.server.peers[l.s].sent, l.server.peers[l.s].since[path.vni];
      Replay(false, Effective(l, path.vni), path) == Replay(Replay(false, Before(l, path.vni), path), sent[mark..], path)
  {
    var sent, mark := l.server.peers[l.s].sent, l.server.peers[l.s].since[path.vni];
    if path.vni in l.cuts {
      var k := l.cuts[path.vni].sent;
      assert sent[k..] == sent[k..mark] + sent[mark..];
    } else {
      assert sent == sent[..mark] + sent[mark..];
    }
    assert Effective(l, path.vni) == Before(l, path.vni) + sent[mark..];
    ReplayConcat(false, Before(l, path.vni), sent[mark..], path);
  }

  lemma {:induction false} ReplayKeepsTrue(msgs: seq<Message>, path: Path)
    ensures Replay(false, msgs, path) ==> Replay(true, msgs, path)
  {
    if msgs != [] {
      ReplayKeepsTrue(msgs[..|msgs| - 1], path);
    }
  }

  /** The server has told `s` the route, or would have. */
  ghost predicate Due(l: Link, path: Path) {
    && l.s in l.server.peers && l.server.peers[l.s].state.Established?
    && HasSource(l.server.table, path) && (l.s, path) !in l.missed
  }

  /**
   * Convergence, subscription by subscription. When nothing is under way any
   * more, a client that never announced `path` itself holds it if it is due;
   * and only then, unless it is left over from before this subscription.
   */
  lemma {:induction false} ClientConvergesAgain(
      past: seq<Event>, s: PeerId, interval: nat, client: Node, q: PeerId, es: seq<LinkEvent>, path: Path)
    requires CanOpen(past, s, client, q) && NeverAdds(past, s, path)
    requires var l0 := Opened(past, s, interval, client, q);
      NeverAnnounces(l0, es, path) && (path.vni, s) in LinkAfter(l0, es).server.subs
    ensures var l := LinkAfter(Opened(past, s, interval, client, q), es);
      && LinkOk(l) && CutsOk(l) && l.s == s
      && (Pending(l) == [] && Marked(l, path.vni) && !l.server.peers[s].isServer ==>
            && (Due(l, path) ==> Received(l, path))
            && (!Replay(false, Before(l, path.vni), path) ==> (Received(l, path) <==> Due(l, path))))
  {
    var l := LinkAfter(Opened(past, s, interval, client, q), es);
    ClientStaysInStep(past, s, interval, client, q, es);
    ForeignOverLink(past, s, interval, client, q, es, path);
    assert Served(l.server, path.vni, s, l.missed);
    if Pending(l) == [] && Marked(l, path.vni) && !l.server.peers[s].isServer {
      var tail := l.server.peers[s].sent[l.server.peers[s].since[path.vni]..];
      BeforeAndSince(l, path);
      ReplayKeepsTrue(tail, path);
      assert View(l.server, s, path) == Replay(false, tail, path);
      if HasSource(l.server.table, path) {
        var src :| Entry(path, src) in l.server.table;
        assert src.Remote? && src.id != s;
        assert OtherSource(l.server, s, path);
      }
    }
  }

  /** In the run `es` no subscription of the client ends. */
  ghost predicate SubscribedThroughout(l: Link, es: seq<LinkEvent>) {
    forall k, v :: 0 <= k < |es| && (v, l.s) in LinkAfter(l, es[..k]).server.subs ==>
      (v, l.s) in LinkAfter(l, es[..k + 1]).server.subs
  }

  lemma {:induction false} SubscribedThroughoutPrefix(l: Link, es: seq<LinkEvent>)
    requires es != [] && SubscribedThroughout(l, es)
    ensures var before := es[..|es| - 1];
      && SubscribedThroughout(l, before)
      && (forall v :: (v, l.s) in LinkAfter(l, before).server.subs ==> (v, l.s) in LinkAfter(l, es).server.subs)
  {
    var k := |es| - 1;
    var before := es[..k];
    forall j, v | 0 <= j < |before| && (v, l.s) in LinkAfter(l, before[..j]).server.subs
      ensures (v, l.s) in LinkAfter(l, before[..j + 1]).server.subs
    {
      assert before[..j] == es[..j] && before[..j + 1] == es[..j + 1];
    }
    assert es[..k + 1] == es;
  }

  lemma NothingSentYet(n: Node, s: PeerId)
    requires s in n.peers && n.peers[s].sent == []
    ensures FirstSubscription(n, s)
  {
  }

  lemma {:induction false} OneSubscription(past: seq<Event>, s: PeerId, interval: nat, client: Node, q: PeerId, es: seq<LinkEvent>)
    requires CanOpen(past, s, client, q)
    requires SubscribedThroughout(Opened(past, s, interval, client, q), es)
    ensures var l := LinkAfter(Opened(past, s, interval, client, q), es);
      s in l.server.peers && FirstSubscription(l.server, s)
  {
    hide FirstSubscription;
    hide ServerInv;
    hide Step;
    hide Enabled;
    hide SubscribedThroughout;
    var l0 := Opened(past, s, interval, client, q);
    if es == [] {
      OpenedInStep(past, s, interval, client, q);
      NothingSentYet(l0.server, s);
    } else {
      var before, e := es[..|es| - 1], es[|es| - 1];
      SubscribedThroughoutPrefix(l0, es);
      OneSubscription(past, s, interval, client, q, before);
      ClientStaysInStep(past, s, interval, client, q, before);
      var mid := LinkAfter(l0, before);
      if LinkEnabled(mid, e) && e.AtServer? {
        FirstSubscriptionStep(mid.server, e.e, s, mid.missed);
      }
    }
  }

  /**
   * Within one subscription nothing is left over: a client that never announced
   * `path` itself and has not unsubscribed holds it exactly when it is due.
   */
  lemma {:induction false} ClientConverges(
      past: seq<Event>, s: PeerId, interval: nat, client: Node, q: PeerId, es: seq<LinkEvent>, path: Path)
    requires CanOpen(past, s, client, q) && NeverAdds(past, s, path)
    requires var l0 := Opened(past, s, interval, client, q);
      && NeverAnnounces(l0, es, path) && SubscribedThroughout(l0, es)
      && (path.vni, s) in LinkAfter(l0, es).server.subs
    ensures var l := LinkAfter(Opened(past, s, interval, client, q), es);
      && LinkOk(l) && l.s == s
      && (Pending(l) == [] && path.vni !in l.cuts && !l.server.peers[s].isServer ==> (Received(l, path) <==> Due(l, path)))
  {
    var l := LinkAfter(Opened(past, s, interval, client, q), es);
    ClientStaysInStep(past, s, interval, client, q, es);
    OneSubscription(past, s, interval, client, q, es);
    ClientConvergesAgain(past, s, interval, client, q, es, path);
    assert Served(l.server, path.vni, s, l.missed);
    if path.vni !in l.cuts {
      var sent, mark := l.server.peers[s].sent, l.server.peers[s].since[path.vni];
      forall i | 0 <= i < |sent[..mark]| && sent[..mark][i].Update? ensures sent[..mark][i].path != path {
        assert sent[..mark][i] == sent[i];
      }
      ReplayWithoutMention(false, sent[..mark], path);
    }
  }

  // Unsubscribing with UPDATEs under way

  /**
   * processRxUpdate does not ask whether the node is still subscribed. When
   * nothing is under way any more, a client that has unsubscribed from a VNI
   * holds exactly the routes that the UPDATEs then under way, and those sent
   * since, amount to.
   */
  lemma {:induction false} UnsubscribedClientHolds(
      past: seq<Event>, s: PeerId, interval: nat, client: Node, q: PeerId, es: seq<LinkEvent>, path: Path)
    requires CanOpen(past, s, client, q)
    ensures var l := LinkAfter(Opened(past, s, interval, client, q), es);
      && LinkOk(l) && CutsOk(l) && l.s == s
      && (Pending(l) == [] && path.vni in l.cuts ==>
            (Received(l, path) <==>
             Replay(false, l.cuts[path.vni].pending + l.server.peers[s].sent[l.cuts[path.vni].sent..], path)))
  {
    ClientStaysInStep(past, s, interval, client, q, es);
  }

  /** An ADD that waits in the channel when the client unsubscribes is stored afterwards and given to the kernel. */
  lemma {:induction false} QueuedAddOutlivesUnsubscribe(l: Link, path: Path)
    requires LinkOk(l) && l.queue != [] && l.queue[0] == Update(ADD, path) && path.dest.ipVersion in {IPV4, IPV6}
    requires !l.client.locked && l.client.announcedHops == {} && ClearsReceived(l.client, EvLocalUnsubscribe(path.vni), l.q)
    requires forall e :: e in l.client.table ==> e.source.Remote? && e.source.id in l.client.members
    ensures var u := AtClient(EvLocalUnsubscribe(path.vni));
      && LinkEnabled(l, u)
      && var m := LinkStep(l, u);
         && LinkOk(m) && LinkEnabled(m, ProcessUpdate) && !Received(m, path)
         && var r := LinkStep(m, ProcessUpdate);
            && LinkOk(r) && path.vni !in r.client.mySubs && Received(r, path)
            && HasSource(r.client.table, path) && r.client.calls == l.client.calls + [AddRoute(path)]
  {
    var m := LinkStep(l, AtClient(EvLocalUnsubscribe(path.vni)));
    assert Entry(path, Remote(l.q)) !in m.client.table;
    var r := LinkStep(m, ProcessUpdate);
    ProcessingApplies(m.client, l.q, ADD, path, path);
    assert Entry(path, Remote(l.q)) in r.client.table;
  }
}
