/**
 * Runs that reach the states in which a property fails: for every choice of
 * peers and routes, from the initial state, one event after the other.
 */
module Witnesses {
  import opened Types
  import opened Engine
  import opened NodeFacts
  import Views
  import EndToEnd
  import Mirror
  import LoopPrevention
  import Lock

  lemma {:induction false} Then(es: seq<Event>, n: Node, e: Event)
    requires After(InitNode, es) == n && Enabled(n, e)
    ensures After(InitNode, es + [e]) == Step(n, e)
  {
    hide Enabled;
    hide Step;
    assert (es + [e])[..|es|] == es;
  }

  function NewPeer(direction: Direction): Peer {
    Peer(direction, false, Connecting, 5, {}, {}, [], map[])
  }

  /** An ADD that nobody else is subscribed to. */
  lemma {:induction false} QuietAdd(n: Node, p: PeerId, path: Path)
    requires p in n.peers && path.dest.ipVersion in {IPV4, IPV6} && !n.locked && n.announcedHops == {}
    requires Entry(path, Remote(p)) !in n.peers[p].received && Entry(path, Remote(p)) !in n.table
    requires forall q :: (path.vni, q) in n.subs && q in n.peers ==> q == p || !n.peers[q].state.Established?
    ensures Enabled(n, EvUpdate(p, ADD, path))
    ensures Step(n, EvUpdate(p, ADD, path)) ==
      WithPeer(n, p, n.peers[p].(received := n.peers[p].received + {Entry(path, Remote(p))}))
        .(table := n.table + {Entry(path, Remote(p))}, calls := n.calls + [AddRoute(path)])
  {
    var n1 := SetReceived(n, p, n.peers[p].received + {Entry(path, Remote(p))});
    var n2 := n1.(table := n1.table + {Entry(path, Remote(p))});
    assert Distribute(n2, ADD, path, p).peers == n2.peers;
  }

  /** A REMOVE of a route somebody else still has, or that nobody else is subscribed to. */
  lemma {:induction false} QuietRemove(n: Node, p: PeerId, path: Path)
    requires p in n.peers && path.dest.ipVersion in {IPV4, IPV6}
    requires Entry(path, Remote(p)) in n.peers[p].received && Entry(path, Remote(p)) in n.table
    requires HasSource(n.table - {Entry(path, Remote(p))}, path) ||
             (!n.locked && forall q :: (path.vni, q) in n.subs && q in n.peers ==> q == p || !n.peers[q].state.Established?)
    ensures Enabled(n, EvUpdate(p, REMOVE, path))
    ensures Step(n, EvUpdate(p, REMOVE, path)) ==
      WithPeer(n, p, n.peers[p].(received := n.peers[p].received - {Entry(path, Remote(p))}))
        .(table := n.table - {Entry(path, Remote(p))}, lastWithdrawn := n.lastWithdrawn[path := p], calls := n.calls + [RemoveRoute(path)])
  {
    var n1 := SetReceived(n, p, n.peers[p].received - {Entry(path, Remote(p))});
    var n2 := n1.(table := n1.table - {Entry(path, Remote(p))}, lastWithdrawn := n1.lastWithdrawn[path := p]);
    if !HasSource(n2.table, path) {
      assert Distribute(n2, REMOVE, path, p).peers == n2.peers;
    }
  }

  /** A peer that becomes ESTABLISHED on a node with nothing of its own. */
  lemma QuietEstablish(n: Node, p: PeerId)
    requires p in n.peers && n.mySubs == {} && n.announcedHops == {}
    ensures Enabled(n, EvSetState(p, Established, [], [], []))
    ensures Step(n, EvSetState(p, Established, [], [], [])) == WithPeer(n, p, n.peers[p].(state := Established))
  {
  }

  /** A SUBSCRIBE that finds one route. */
  lemma {:induction false} SubscribeToOne(n: Node, s: PeerId, path: Path, x: Entry)
    requires s in n.peers && n.peers[s].state.Established? && !n.locked && (path.vni, s) !in n.subs
    requires x.path == path && path.dest.ipVersion in {IPV4, IPV6} && x.source != Remote(s) && n.table == {x}
    ensures Enabled(n, EvSubscribe(s, path.vni, [x]))
    ensures Step(n, EvSubscribe(s, path.vni, [x])) == Push(Joined(n, s, path.vni), s, Update(ADD, path))
  {
    assert SnapshotAt(n, path.vni) == {x};
    assert [x][..0] == [];
    assert SendSnapshot(Joined(n, s, path.vni), s, []) == Joined(n, s, path.vni);
  }

  // A stale view (Views.SelfWithdrawalGoesStaleIff)

  function SharedRoute(q: PeerId, s: PeerId, path: Path): seq<Event> {
    [] + [EvConnect(q, Incoming, 5)] + [EvConnect(s, Incoming, 5)] + [EvSetState(s, Established, [], [], [])]
    + [EvUpdate(q, ADD, path)]
  }

  /** `q` announces a route; `s` is ESTABLISHED. */
  ghost predicate OneRoute(n: Node, q: PeerId, s: PeerId, path: Path) {
    && n.peers.Keys == {q, s} && n.table == {Entry(path, Remote(q))} && n.subs == {} && !n.locked
    && n.mySubs == {} && n.announced == {} && n.announcedHops == {} && n.members == {q, s}
    && n.peers[q].received == {Entry(path, Remote(q))}
    && n.peers[s] == NewPeer(Incoming).(state := Established)
    && n.calls == [AddRoute(path)]
  }

  lemma {:induction false} SharedRouteRuns(q: PeerId, s: PeerId, path: Path)
    requires q != s && path.dest.ipVersion in {IPV4, IPV6}
    ensures OneRoute(After(InitNode, SharedRoute(q, s, path)), q, s, path)
  {
    assert After(InitNode, []) == InitNode;
    Then([], InitNode, EvConnect(q, Incoming, 5));
    var n1 := Step(InitNode, EvConnect(q, Incoming, 5));
    var es1 := [] + [EvConnect(q, Incoming, 5)];
    Then(es1, n1, EvConnect(s, Incoming, 5));
    var n2 := Step(n1, EvConnect(s, Incoming, 5));
    var es2 := es1 + [EvConnect(s, Incoming, 5)];
    QuietEstablish(n2, s);
    Then(es2, n2, EvSetState(s, Established, [], [], []));
    var n3 := WithPeer(n2, s, n2.peers[s].(state := Established));
    QuietAdd(n3, q, path);
    Then(es2 + [EvSetState(s, Established, [], [], [])], n3, EvUpdate(q, ADD, path));
  }

  /** q ADD, s SUBSCRIBE, s ADD, q REMOVE, s REMOVE: nobody has the route, and `s` was last told that it is there. */
  lemma {:induction false} StaleViewIsReachable(q: PeerId, s: PeerId, path: Path)
    requires q != s && path.dest.ipVersion in {IPV4, IPV6}
    ensures var n := After(InitNode,
        SharedRoute(q, s, path) + [EvSubscribe(s, path.vni, [Entry(path, Remote(q))])]
        + [EvUpdate(s, ADD, path)] + [EvUpdate(q, REMOVE, path)] + [EvUpdate(s, REMOVE, path)]);
      && s in n.peers && n.peers[s].state.Established? && (path.vni, s) in n.subs
      && Views.View(n, s, path) && !HasSource(n.table, path)
  {
    var es := SharedRoute(q, s, path);
    SharedRouteRuns(q, s, path);
    var n := After(InitNode, es);
    hide After;
    hide SharedRoute;
    hide Enabled;
    hide Step;
    var eq := Entry(path, Remote(q));
    SubscribeToOne(n, s, path, eq);
    Then(es, n, EvSubscribe(s, path.vni, [eq]));
    var n1 := Push(Joined(n, s, path.vni), s, Update(ADD, path));
    GoesStale(n1, q, s, path, es + [EvSubscribe(s, path.vni, [eq])]);
  }

  lemma {:induction false} GoesStale(n: Node, q: PeerId, s: PeerId, path: Path, es: seq<Event>)
    requires n == After(InitNode, es) && q != s && path.dest.ipVersion in {IPV4, IPV6}
    requires n.peers.Keys == {q, s} && !n.locked && n.announcedHops == {} && n.subs == {(path.vni, s)}
    requires n.table == n.peers[q].received == {Entry(path, Remote(q))} && n.peers[s].received == {}
    requires n.peers[s].state.Established? && n.peers[s].since == map[path.vni := 0] && n.peers[s].sent == [Update(ADD, path)]
    ensures var n := After(InitNode, es + [EvUpdate(s, ADD, path)] + [EvUpdate(q, REMOVE, path)] + [EvUpdate(s, REMOVE, path)]);
      && s in n.peers && n.peers[s].state.Established? && (path.vni, s) in n.subs
      && Views.View(n, s, path) && !HasSource(n.table, path)
  {
    hide After;
    hide Enabled;
    hide Step;
    var eS := Entry(path, Remote(s));
    QuietAdd(n, s, path);
    Then(es, n, EvUpdate(s, ADD, path));
    var n2 := Step(n, EvUpdate(s, ADD, path));
    assert eS in n2.table - {Entry(path, Remote(q))};
    QuietRemove(n2, q, path);
    Then(es + [EvUpdate(s, ADD, path)], n2, EvUpdate(q, REMOVE, path));
    var n3 := Step(n2, EvUpdate(q, REMOVE, path));
    QuietRemove(n3, s, path);
    Then(es + [EvUpdate(s, ADD, path)] + [EvUpdate(q, REMOVE, path)], n3, EvUpdate(s, REMOVE, path));
    var n4 := Step(n3, EvUpdate(s, REMOVE, path));
    assert n4.table == {};
    assert n4.peers[s].sent[0..] == [] + [Update(ADD, path)];
    Views.ReplayAppend(false, [], Update(ADD, path), path);
  }

  // The lock held, and the client still called (Lock.WedgedForEver)

  /**
   * `p` and `q` announce a route, `s` subscribes twice, then `p` sends its
   * REMOVE: the handler runs to its end and tells the client to drop a hop
   * that `q` still has.
   */
  lemma {:induction false} LockedNodeStillCalls(q: PeerId, s: PeerId, p: PeerId, path: Path)
    requires q != s && p != q && p != s && path.dest.ipVersion in {IPV4, IPV6}
    ensures exists es, again :: var n := After(InitNode, es);
      && Lock.Duplicate(n, again) && again.p == s && Enabled(Step(n, again), EvUpdate(p, REMOVE, path))
      && var r := Step(Step(n, again), EvUpdate(p, REMOVE, path));
         r.locked && r.calls == n.calls + [RemoveRoute(path)] && HasSource(r.table, path)
  {
    var es := SharedRoute(q, s, path);
    SharedRouteRuns(q, s, path);
    var n := After(InitNode, es);
    hide After;
    hide SharedRoute;
    hide Enabled;
    hide Step;
    var eq, eP := Entry(path, Remote(q)), Entry(path, Remote(p));
    SubscribeToOne(n, s, path, eq);
    Then(es, n, EvSubscribe(s, path.vni, [eq]));
    var n1 := Push(Joined(n, s, path.vni), s, Update(ADD, path));
    var es1 := es + [EvSubscribe(s, path.vni, [eq])];
    ConnectIsEvent(n1, p, Incoming, 5);
    Then(es1, n1, EvConnect(p, Incoming, 5));
    var n2 := Step(n1, EvConnect(p, Incoming, 5));
    var es2 := es1 + [EvConnect(p, Incoming, 5)];
    AddEffect(n2, p, path);
    Then(es2, n2, EvUpdate(p, ADD, path));
    var n3 := Step(n2, EvUpdate(p, ADD, path));
    SubscribesAgain(n3, s, q, p, path, es2 + [EvUpdate(p, ADD, path)]);
  }

  lemma {:induction false} SubscribesAgain(n: Node, s: PeerId, q: PeerId, p: PeerId, path: Path, es: seq<Event>)
    requires n == After(InitNode, es) && s in n.peers && p in n.peers && !n.locked && (path.vni, s) in n.subs && p != q
    requires n.table == {Entry(path, Remote(q)), Entry(path, Remote(p))} && Entry(path, Remote(p)) in n.peers[p].received
    requires path.dest.ipVersion in {IPV4, IPV6}
    ensures exists es, again :: var n := After(InitNode, es);
      && Lock.Duplicate(n, again) && again.p == s && Enabled(Step(n, again), EvUpdate(p, REMOVE, path))
      && var r := Step(Step(n, again), EvUpdate(p, REMOVE, path));
         r.locked && r.calls == n.calls + [RemoveRoute(path)] && HasSource(r.table, path)
  {
    hide After;
    hide Enabled;
    hide Step;
    hide Lock.Duplicate;
    var eq, eP := Entry(path, Remote(q)), Entry(path, Remote(p));
    var both := [eq, eP];
    assert SnapshotAt(n, path.vni) == {eq, eP};
    var again := EvSubscribe(s, path.vni, both);
    LocksUp(n, s, path, both);
    var m := Step(n, again);
    assert eq in m.table - {eP};
    QuietRemove(m, p, path);
    var r := Step(m, EvUpdate(p, REMOVE, path));
    assert eq in r.table;
    assert again.p == s && r.locked && HasSource(r.table, path);
  }

  lemma AddEffect(n: Node, p: PeerId, path: Path)
    requires p in n.peers && path.dest.ipVersion in {IPV4, IPV6} && !n.locked && n.announcedHops == {}
    requires Entry(path, Remote(p)) !in n.peers[p].received && Entry(path, Remote(p)) !in n.table
    ensures Enabled(n, EvUpdate(p, ADD, path))
    ensures var r := Step(n, EvUpdate(p, ADD, path));
      && r.peers.Keys == n.peers.Keys && r.locked == n.locked && r.subs == n.subs
      && r.table == n.table + {Entry(path, Remote(p))}
      && Entry(path, Remote(p)) in r.peers[p].received
      && forall x :: x in n.peers ==> r.peers[x].state == n.peers[x].state
  {
  }

  lemma LocksUp(n: Node, s: PeerId, path: Path, snapshot: seq<Entry>)
    requires s in n.peers && !n.locked && (path.vni, s) in n.subs && Enumerates(snapshot, SnapshotAt(n, path.vni))
    ensures Lock.Duplicate(n, EvSubscribe(s, path.vni, snapshot))
    ensures var r := Step(n, EvSubscribe(s, path.vni, snapshot));
      && r.locked && r.table == n.table && r.calls == n.calls && r.peers.Keys == n.peers.Keys
      && forall x :: x in n.peers ==> r.peers[x].received == n.peers[x].received
  {
  }

  // The client left behind (Mirror.UnsubscribeKeepsWithinIff)

  /** Subscribe, receive a route, unsubscribe: the client keeps a hop the table no longer has. */
  lemma {:induction false} UnsubscribedClientKeepsRoute(p: PeerId, path: Path)
    requires path.dest.ipVersion in {IPV4, IPV6}
    ensures var n := After(InitNode, [] + [EvLocalSubscribe(path.vni, [])] + [EvConnect(p, Outgoing, 5)]
        + [EvUpdate(p, ADD, path)] + [EvLocalUnsubscribe(path.vni)]);
      Mirror.Kept(n.calls, path) && !HasSource(n.table, path) && !Mirror.Within(n)
  {
    assert After(InitNode, []) == InitNode;
    hide After;
    hide Enabled;
    hide Step;
    var e1, e2 := EvLocalSubscribe(path.vni, []), EvConnect(p, Outgoing, 5);
    LocalSubscribeIsEvent(InitNode, path.vni, []);
    NobodyToTell(InitNode, path.vni);
    Then([], InitNode, e1);
    var n1 := Step(InitNode, e1);
    ConnectIsEvent(n1, p, Outgoing, 5);
    Then([] + [e1], n1, e2);
    var n2 := Step(n1, e2);
    QuietAdd(n2, p, path);
    Then([] + [e1] + [e2], n2, EvUpdate(p, ADD, path));
    var n3 := Step(n2, EvUpdate(p, ADD, path));
    LocalUnsubscribeIsEvent(n3, path.vni);
    Then([] + [e1] + [e2] + [EvUpdate(p, ADD, path)], n3, EvLocalUnsubscribe(path.vni));
    var n4 := Step(n3, EvLocalUnsubscribe(path.vni));
    assert n4.table == {} && n4.calls == [] + [AddRoute(path)];
    Mirror.KeptAppend([], AddRoute(path), path);
  }

  lemma {:induction false} NobodyToTell(n: Node, vni: VNI)
    requires vni !in n.mySubs
    ensures LocalSubscribe(n, vni, []) == n.(mySubs := n.mySubs + {vni})
  {
    var m := n.(mySubs := n.mySubs + {vni});
    assert ToSet<PeerId>([][..Reached(m, Subscribe(vni), [])]) == {};
    DeliverNone(m, Subscribe(vni));
  }

  // A route announced too late (LoopPrevention.AnnouncingKeepsTheGuardIff)

  /** A STANDARD route arrives before the node announces the destination itself: both stay. */
  lemma {:induction false} LateAnnouncementIsUnguarded(p: PeerId, path: Path, own: NextHop)
    requires path.dest.ipVersion in {IPV4, IPV6} && path.hop.kind == STANDARD
    ensures !LoopPrevention.Guarded(After(InitNode, [] + [EvConnect(p, Incoming, 5)] + [EvUpdate(p, ADD, path)]
        + [EvAnnounce(Path(path.vni, path.dest, own), [p])]))
  {
    assert After(InitNode, []) == InitNode;
    hide After;
    hide Enabled;
    hide Step;
    var e1, e2 := EvConnect(p, Incoming, 5), EvUpdate(p, ADD, path);
    var mine := Path(path.vni, path.dest, own);
    ConnectIsEvent(InitNode, p, Incoming, 5);
    Then([], InitNode, e1);
    var n1 := Step(InitNode, e1);
    QuietAdd(n1, p, path);
    Then([] + [e1], n1, e2);
    var n2 := Step(n1, e2);
    AnnounceEffect(n2, mine, [p]);
    Then([] + [e1] + [e2], n2, EvAnnounce(mine, [p]));
    var n3 := Step(n2, EvAnnounce(mine, [p]));
    assert mine in n3.announced && Entry(path, Remote(p)) in n3.table;
  }

  lemma AnnounceEffect(n: Node, path: Path, order: seq<PeerId>)
    requires MembersInOrder(n, order) && !n.locked && path !in n.announced
    ensures Enabled(n, EvAnnounce(path, order))
    ensures var r := Step(n, EvAnnounce(path, order));
      r.announced == n.announced + {path} && r.table == n.table
  {
  }

  // A SUBSCRIBE that comes too early (Views.EarlySubscriberServedIff)

  /** The subscriber misses what is announced before it is ESTABLISHED. */
  lemma {:induction false} EarlySubscriberMissesRoute(s: PeerId, q: PeerId, path: Path)
    requires q != s && path.dest.ipVersion in {IPV4, IPV6}
    ensures var n := After(InitNode, [] + [EvConnect(s, Incoming, 5)] + [EvSubscribeEarly(s, path.vni)]
        + [EvConnect(q, Incoming, 5)] + [EvUpdate(q, ADD, path)] + [EvSetState(s, Established, [], [], [])]);
      && s in n.peers && n.peers[s].state.Established? && (path.vni, s) in n.subs
      && Views.OtherSource(n, s, path) && !Views.View(n, s, path)
  {
    assert After(InitNode, []) == InitNode;
    hide After;
    hide Enabled;
    hide Step;
    var e1, e2, e3, e4 := EvConnect(s, Incoming, 5), EvSubscribeEarly(s, path.vni), EvConnect(q, Incoming, 5), EvUpdate(q, ADD, path);
    ConnectIsEvent(InitNode, s, Incoming, 5);
    Then([], InitNode, e1);
    var n1 := Step(InitNode, e1);
    EarlyIsEvent(n1, s, path.vni);
    Then([] + [e1], n1, e2);
    var n2 := Step(n1, e2);
    ConnectIsEvent(n2, q, Incoming, 5);
    Then([] + [e1] + [e2], n2, e3);
    var n3 := Step(n2, e3);
    QuietAdd(n3, q, path);
    Then([] + [e1] + [e2] + [e3], n3, e4);
    var n4 := Step(n3, e4);
    QuietEstablish(n4, s);
    Then([] + [e1] + [e2] + [e3] + [e4], n4, EvSetState(s, Established, [], [], []));
    var n5 := Step(n4, EvSetState(s, Established, [], [], []));
    assert Entry(path, Remote(q)) in n5.table && n5.peers[s].sent == [];
  }

  // An UPDATE in the channel when the client unsubscribes (EndToEnd.QueuedAddOutlivesUnsubscribe)

  /** A client with one outgoing peer that has subscribed to a VNI. */
  function Subscriber(q: PeerId, vni: VNI): seq<Event> {
    [] + [EvLocalSubscribe(vni, [])] + [EvConnect(q, Outgoing, 5)]
  }

  lemma {:induction false} SubscriberRuns(q: PeerId, vni: VNI)
    ensures After(InitNode, Subscriber(q, vni)) == InitNode.(mySubs := {vni}, members := {q}, peers := map[q := NewPeer(Outgoing)])
  {
    assert After(InitNode, []) == InitNode;
    hide After;
    hide Enabled;
    hide Step;
    LocalSubscribeIsEvent(InitNode, vni, []);
    NobodyToTell(InitNode, vni);
    Then([], InitNode, EvLocalSubscribe(vni, []));
    var n1 := Step(InitNode, EvLocalSubscribe(vni, []));
    ConnectIsEvent(n1, q, Outgoing, 5);
    Then([] + [EvLocalSubscribe(vni, [])], n1, EvConnect(q, Outgoing, 5));
  }

  /** `p` is connected to the server; then `s` is, becomes ESTABLISHED and subscribes; then `p` sends its ADD. */
  function Arrival(p: PeerId, s: PeerId, path: Path): seq<EndToEnd.LinkEvent> {
    [] + [EndToEnd.AtServer(EvSetState(s, Established, [], [], []))]
    + [EndToEnd.AtServer(EvSubscribe(s, path.vni, []))]
    + [EndToEnd.AtServer(EvUpdate(p, ADD, path))]
    + [EndToEnd.Read]
  }

  lemma {:induction false} LinkThen(l: EndToEnd.Link, es: seq<EndToEnd.LinkEvent>, m: EndToEnd.Link, e: EndToEnd.LinkEvent)
    requires EndToEnd.LinkAfter(l, es) == m && EndToEnd.LinkOk(m) && EndToEnd.LinkEnabled(m, e)
    ensures EndToEnd.LinkAfter(l, es + [e]) == EndToEnd.LinkStep(m, e)
  {
    hide EndToEnd.LinkEnabled;
    hide EndToEnd.LinkStep;
    assert (es + [e])[..|es|] == es;
  }

  lemma {:induction false} ServerBefore(p: PeerId, s: PeerId)
    requires p != s
    ensures After(InitNode, [] + [EvConnect(p, Incoming, 5)]) == InitNode.(members := {p}, peers := map[p := NewPeer(Incoming)])
    ensures After(InitNode, [] + [EvConnect(p, Incoming, 5)] + [EvConnect(s, Incoming, 5)]) ==
      InitNode.(members := {p, s}, peers := map[p := NewPeer(Incoming), s := NewPeer(Incoming)])
  {
    assert After(InitNode, []) == InitNode;
    hide After;
    hide Enabled;
    hide Step;
    ConnectIsEvent(InitNode, p, Incoming, 5);
    Then([], InitNode, EvConnect(p, Incoming, 5));
    var n1 := Step(InitNode, EvConnect(p, Incoming, 5));
    ConnectIsEvent(n1, s, Incoming, 5);
    Then([] + [EvConnect(p, Incoming, 5)], n1, EvConnect(s, Incoming, 5));
  }

  /** A SUBSCRIBE on an empty server. */
  lemma {:induction false} SubscribeToNothing(n: Node, s: PeerId, vni: VNI)
    requires s in n.peers && n.peers[s].state.Established? && !n.locked && (vni, s) !in n.subs && n.table == {}
    ensures Enabled(n, EvSubscribe(s, vni, [])) && Step(n, EvSubscribe(s, vni, [])) == Joined(n, s, vni)
  {
    assert SnapshotAt(n, vni) == {};
  }

  /** An ADD with one hearer. */
  lemma ToldAdd(n: Node, p: PeerId, s: PeerId, path: Path)
    requires p in n.peers && s in n.peers && p != s && path.dest.ipVersion in {IPV4, IPV6} && !n.locked && n.announcedHops == {}
    requires n.table == {} && n.peers[p].received == {} && n.subs == {(path.vni, s)} && n.peers[s].state.Established? && !n.peers[s].isServer
    ensures Enabled(n, EvUpdate(p, ADD, path))
    ensures var r := Step(n, EvUpdate(p, ADD, path));
      s in r.peers && r.peers[s].sent == n.peers[s].sent + [Update(ADD, path)]
  {
  }

  /** The run ends with the ADD in the client's channel, and everything QueuedAddOutlivesUnsubscribe asks for. */
  lemma {:induction false} QueuedAddIsReachable(p: PeerId, s: PeerId, q: PeerId, path: Path)
    requires p != s && path.dest.ipVersion in {IPV4, IPV6}
    ensures var client := After(InitNode, Subscriber(q, path.vni));
      var past := [] + [EvConnect(p, Incoming, 5)];
      && EndToEnd.CanOpen(past, s, client, q)
      && var l := EndToEnd.LinkAfter(EndToEnd.Opened(past, s, 5, client, q), Arrival(p, s, path));
         && EndToEnd.LinkOk(l) && l.queue == [Update(ADD, path)] && l.client == client && l.q == q
         && !client.locked && client.announcedHops == {} && client.table == {}
         && EndToEnd.ClearsReceived(client, EvLocalUnsubscribe(path.vni), q)
  {
    var past := [] + [EvConnect(p, Incoming, 5)];
    var client := After(InitNode, Subscriber(q, path.vni));
    SubscriberRuns(q, path.vni);
    ServerBefore(p, s);
    var l0 := EndToEnd.Opened(past, s, 5, client, q);
    assert EndToEnd.LinkAfter(l0, []) == l0;
    hide After;
    hide Enabled;
    hide Step;
    hide EndToEnd.LinkAfter;
    hide Views.MissedAfter;
    hide Views.MissedIn;
    JoinsServer(l0, p, path);
  }

  lemma {:induction false} JoinsServer(l0: EndToEnd.Link, p: PeerId, path: Path)
    requires EndToEnd.LinkAfter(l0, []) == l0 && l0.s != p && l0.q in l0.client.peers && l0.taken == 0 && l0.queue == []
    requires l0.server == InitNode.(members := {p, l0.s}, peers := map[p := NewPeer(Incoming), l0.s := NewPeer(Incoming)])
    requires path.dest.ipVersion in {IPV4, IPV6}
    ensures var r := EndToEnd.LinkAfter(l0, Arrival(p, l0.s, path));
      EndToEnd.LinkOk(r) && r.queue == [Update(ADD, path)] && r.client == l0.client && r.q == l0.q
  {
    hide Enabled;
    hide Step;
    hide EndToEnd.LinkAfter;
    hide Views.MissedAfter;
    var s := l0.s;
    var e1 := EvSetState(s, Established, [], [], []);
    QuietEstablish(l0.server, s);
    LinkThen(l0, [], l0, EndToEnd.AtServer(e1));
    var l1 := EndToEnd.LinkStep(l0, EndToEnd.AtServer(e1));
    SubscribeToNothing(l1.server, s, path.vni);
    var e2 := EvSubscribe(s, path.vni, []);
    LinkThen(l0, [] + [EndToEnd.AtServer(e1)], l1, EndToEnd.AtServer(e2));
    var l2 := EndToEnd.LinkStep(l1, EndToEnd.AtServer(e2));
    ArrivesInQueue(l0, [] + [EndToEnd.AtServer(e1)] + [EndToEnd.AtServer(e2)], l2, p, path);
  }

  lemma {:induction false} ArrivesInQueue(l0: EndToEnd.Link, es: seq<EndToEnd.LinkEvent>, l: EndToEnd.Link, p: PeerId, path: Path)
    requires EndToEnd.LinkAfter(l0, es) == l && EndToEnd.LinkOk(l) && l.taken == 0 && l.queue == []
    requires p in l.server.peers && p != l.s && path.dest.ipVersion in {IPV4, IPV6} && !l.server.locked && l.server.announcedHops == {}
    requires l.server.table == {} && l.server.peers[p].received == {} && l.server.subs == {(path.vni, l.s)}
    requires l.server.peers[l.s].state.Established? && !l.server.peers[l.s].isServer && l.server.peers[l.s].sent == []
    ensures var r := EndToEnd.LinkAfter(l0, es + [EndToEnd.AtServer(EvUpdate(p, ADD, path))] + [EndToEnd.Read]);
      EndToEnd.LinkOk(r) && r.queue == [Update(ADD, path)] && r.client == l.client && r.q == l.q
  {
    hide Enabled;
    hide Step;
    hide EndToEnd.LinkAfter;
    hide Views.MissedAfter;
    ToldAdd(l.server, p, l.s, path);
    var e3 := EvUpdate(p, ADD, path);
    LinkThen(l0, es, l, EndToEnd.AtServer(e3));
    var l3 := EndToEnd.LinkStep(l, EndToEnd.AtServer(e3));
    LinkThen(l0, es + [EndToEnd.AtServer(e3)], l3, EndToEnd.Read);
  }
}
