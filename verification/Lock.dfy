/**
 * addSubscriber returns without releasing mtxSubscribers when the peer is
 * subscribed already. When that happens, and what the rest of a run can still do.
 */
module Lock {
  import opened Types
  import opened Engine
  import opened Ownership
  import opened NodeFacts

  /** A SUBSCRIBE for a VNI the peer is subscribed to reaches its handler. */
  ghost predicate Duplicate(n: Node, e: Event) {
    Enabled(n, e) && e.EvSubscribe? && (e.vni, e.p) in n.subs
  }

  lemma {:induction false} RemovalsKeepTheLock(n: Node, p: PeerId, purges: PurgeOrder)
    requires p in n.peers
    ensures RemoveSubscriptions(n, p, purges).locked == n.locked
  {
    if purges != [] {
      var before, last := purges[..|purges| - 1], purges[|purges| - 1];
      RemovalsKeepTheLock(n, p, before);
      PurgeEffect(RemoveSubscriptions(n, p, before), p, last.1);
    }
  }

  lemma {:induction false} SetStateKeepsTheLock(n: Node, p: PeerId, state: ConnState, vnis: seq<VNI>, paths: seq<Path>, purges: PurgeOrder)
    requires p in n.peers
    ensures SetState(n, p, state, vnis, paths, purges).locked == n.locked
  {
    if state.Established? {
      EstablishingOnlySends(n, p, vnis, paths, purges);
    } else {
      RemovalsKeepTheLock(n.(peers := n.peers[p := n.peers[p].(state := state)]), p, purges);
    }
  }

  lemma {:induction false} UpdateKeepsTheLock(n: Node, p: PeerId, action: byte, path: Path)
    requires p in n.peers
    ensures RxUpdate(n, p, action, path).locked == n.locked
  {
    hide AddReceived;
    hide DropRoute;
    DropRouteEffect(n, p, path);
    AddReceivedEffect(SetReceived(n, p, n.peers[p].received + {Entry(path, Remote(p))}), p, path);
  }

  /** Only a duplicate SUBSCRIBE takes the lock away. */
  lemma {:induction false} LocksIff(n: Node, e: Event)
    requires Enabled(n, e)
    ensures Step(n, e).locked <==> n.locked || Duplicate(n, e)
  {
    hide SetState;
    hide RxUpdate;
    hide SendSnapshot;
    hide Purge;
    hide SendToMembers;
    hide CanSetState;
    match e
    case EvHello(p, interval, isServer, purges) =>
      SetStateKeepsTheLock(NoteHello(n, p, interval, isServer), p, HelloReceived, [], [], purges);
    case EvSetState(p, state, vnis, paths, purges) => SetStateKeepsTheLock(n, p, state, vnis, paths, purges);
    case EvUpdate(p, action, path) => UpdateKeepsTheLock(n, p, action, path);
    case EvSubscribe(p, vni, snapshot) =>
      SnapshotOnlySends(Joined(n, p, vni), p, snapshot);
    case EvUnsubscribe(p, vni, paths) => PurgeEffect(n, p, paths);
    case EvCleanup(p, vnis, paths) =>
      UnsubscribingKeepsTheLock(n, vnis);
      var m := UnsubscribeAll(n, vnis);
      PurgeEffect(m, p, paths[..PresentPrefix(m.peers[p].received, p, paths)]);
    case EvLocalSubscribe(vni, order) => MembersOnlySend(n.(mySubs := n.mySubs + {vni}), Subscribe(vni), order);
    case EvAnnounce(path, order) =>
      MembersOnlySend(n.(announced := n.announced + {path}, announcedHops := n.announcedHops + {path}), Update(ADD, path), order);
    case EvWithdraw(path, order) =>
      MembersOnlySend(n.(announced := n.announced - {path}, announcedHops := n.announcedHops - {path}), Update(REMOVE, path), order);
    case _ =>
  }

  /** Event `i` of the run is a duplicate SUBSCRIBE. */
  ghost predicate DuplicateAt(es: seq<Event>, i: nat)
    requires i < |es|
  {
    Duplicate(After(InitNode, es[..i]), es[i])
  }

  lemma {:induction false} LastEventLocks(es: seq<Event>)
    requires es != []
    ensures After(InitNode, es).locked <==> After(InitNode, es[..|es| - 1]).locked || DuplicateAt(es, |es| - 1)
  {
    hide Enabled;
    hide Step;
    var before, e := es[..|es| - 1], es[|es| - 1];
    if Enabled(After(InitNode, before), e) {
      LocksIff(After(InitNode, before), e);
    }
  }

  lemma {:induction false} DuplicateInPrefix(es: seq<Event>, k: nat, i: nat)
    requires i < k <= |es|
    ensures DuplicateAt(es[..k], i) == DuplicateAt(es, i)
  {
    assert es[..k][..i] == es[..i];
  }

  /** A run ends with the lock held exactly when some event of it was a duplicate SUBSCRIBE. */
  lemma {:induction false} LockedIffDuplicate(es: seq<Event>)
    ensures After(InitNode, es).locked <==> exists i :: 0 <= i < |es| && DuplicateAt(es, i)
  {
    hide DuplicateAt;
    if es != [] {
      hide After;
      var k := |es| - 1;
      LockedIffDuplicate(es[..k]);
      LastEventLocks(es);
      forall i | 0 <= i < k ensures DuplicateAt(es[..k], i) == DuplicateAt(es, i) {
        DuplicateInPrefix(es, k, i);
      }
      if After(InitNode, es[..k]).locked {
        var i :| 0 <= i < k && DuplicateAt(es[..k], i);
        assert DuplicateAt(es, i);
      }
    }
  }

  // The run goes on

  /** The node, and the peers whose handler waits for the lock. */
  datatype World = World(node: Node, hung: set<PeerId>)

  /** A handler runs to its end, or begins and waits for good. */
  datatype Happening = Runs(e: Event) | Waits(e: Event)

  /** The event is handled by the goroutine of its peer. */
  predicate InHandler(e: Event) {
    e.EvHello? || e.EvUpdate? || e.EvSubscribe? || e.EvSubscribeEarly? || e.EvUnsubscribe? || e.EvCleanup?
  }

  ghost predicate CanHappen(w: World, h: Happening) {
    && (if h.Runs? then Enabled(w.node, h.e) else Blocks(w.node, h.e))
    && (InHandler(h.e) ==> h.e.p !in w.hung)
  }

  ghost function Next(w: World, h: Happening): World
    requires CanHappen(w, h)
  {
    if h.Runs? then w.(node := Step(w.node, h.e))
    else World(Halted(w.node, h.e), if InHandler(h.e) then w.hung + {h.e.p} else w.hung)
  }

  ghost function WorldAfter(w: World, hs: seq<Happening>): World
    decreases |hs|
  {
    if hs == [] then w
    else
      var mid := WorldAfter(w, hs[..|hs| - 1]);
      var h := hs[|hs| - 1];
      if CanHappen(mid, h) then Next(mid, h) else mid
  }

  // What is sent

  /** New UPDATEs in the stream are ADDs of offered routes. */
  ghost predicate Extends(was: seq<Message>, now: seq<Message>, offered: set<Path>) {
    && was <= now
    && forall i :: |was| <= i < |now| && now[i].Update? ==> now[i].action == ADD && now[i].path in offered
  }

  ghost predicate Quietly(n: Node, r: Node, offered: set<Path>) {
    && n.peers.Keys <= r.peers.Keys
    && (forall q :: q in n.peers ==> Extends(n.peers[q].sent, r.peers[q].sent, offered))
    && (forall q :: q in r.peers && q !in n.peers ==> Extends([], r.peers[q].sent, offered))
  }

  lemma {:induction false} QuietlyTransitive(n: Node, m: Node, r: Node, a: set<Path>, b: set<Path>)
    requires Quietly(n, m, a) && Quietly(m, r, b) && a <= b
    ensures Quietly(n, r, b)
  {
    forall q | q in r.peers ensures Extends(if q in n.peers then n.peers[q].sent else [], r.peers[q].sent, b) {
      var was := if q in n.peers then n.peers[q].sent else [];
      if q in m.peers {
        assert forall i :: |was| <= i < |m.peers[q].sent| ==> r.peers[q].sent[i] == m.peers[q].sent[i];
      }
    }
  }

  lemma SameStreams(n: Node, r: Node)
    requires r.peers.Keys == n.peers.Keys && forall q :: q in n.peers ==> r.peers[q].sent == n.peers[q].sent
    ensures Quietly(n, r, {})
  {
  }

  lemma {:induction false} SubscriptionsSendNoUpdate(n: Node, p: PeerId, vnis: seq<VNI>)
    requires p in n.peers
    ensures Quietly(n, SendSubscriptions(n, p, vnis), {})
  {
    if vnis == [] {
      SameStreams(n, n);
    } else {
      SubscriptionsSendNoUpdate(n, p, vnis[..|vnis| - 1]);
    }
  }

  lemma {:induction false} AnnouncementsSendAdds(n: Node, p: PeerId, paths: seq<Path>, offered: set<Path>)
    requires p in n.peers && forall x :: x in paths ==> x in offered
    ensures Quietly(n, SendAnnouncements(n, p, paths), offered)
  {
    if paths == [] {
      SameStreams(n, n);
    } else {
      var k := |paths| - 1;
      assert paths[k] in paths;
      AnnouncementsSendAdds(n, p, paths[..k], offered);
    }
  }

  lemma {:induction false} LocalUnsubscribeSendsNoUpdate(n: Node, vni: VNI)
    ensures Quietly(n, LocalUnsubscribe(n, vni), {})
  {
  }

  lemma {:induction false} UnsubscribingSendsNoUpdate(n: Node, vnis: seq<VNI>)
    ensures var r := UnsubscribeAll(n, vnis);
      && Quietly(n, r, {}) && r.locked == n.locked && r.subs == n.subs && r.calls == n.calls
      && r.table <= n.table && r.announcedHops == n.announcedHops && r.peers.Keys == n.peers.Keys
  {
    if vnis == [] {
      SameStreams(n, n);
    } else {
      var m := UnsubscribeAll(n, vnis[..|vnis| - 1]);
      UnsubscribingSendsNoUpdate(n, vnis[..|vnis| - 1]);
      var r := LocalUnsubscribe(m, vnis[|vnis| - 1]);
      LocalUnsubscribeSendsNoUpdate(m, vnis[|vnis| - 1]);
      hide Quietly;
      QuietlyTransitive(n, m, r, {}, {});
    }
  }

  // Which calls the client gets

  function RemoveRoutes(paths: seq<Path>): seq<Call> {
    seq(|paths|, i requires 0 <= i < |paths| => RemoveRoute(paths[i]))
  }

  lemma RemoveRoutesAppend(a: seq<Path>, b: seq<Path>)
    ensures RemoveRoutes(a + b) == RemoveRoutes(a) + RemoveRoutes(b)
  {
  }

  /** The routes of `order` the node's table has from `p`. */
  function Held(table: set<Entry>, p: PeerId, order: seq<Path>): seq<Path> {
    if order == [] then []
    else
      var x := order[|order| - 1];
      Held(table, p, order[..|order| - 1]) + if Entry(x, Remote(p)) in table then [x] else []
  }

  lemma {:induction false} HeldAre(table: set<Entry>, p: PeerId, order: seq<Path>)
    ensures forall x :: x in Held(table, p, order) <==> x in order && Entry(x, Remote(p)) in table
  {
    if order != [] {
      HeldAre(table, p, order[..|order| - 1]);
      assert order == order[..|order| - 1] + [order[|order| - 1]];
    }
  }

  /** The routes a happening takes away although another peer still has them. */
  ghost function Withdrawn(w: World, h: Happening): seq<Path>
    requires CanHappen(w, h)
  {
    match h.e
    case EvUpdate(p, action, path) =>
      if h.Runs? && action == REMOVE && Entry(path, Remote(p)) in w.node.peers[p].received then Held(w.node.table, p, [path]) else []
    case EvCleanup(p, vnis, paths) =>
      var n1 := UnsubscribeAll(w.node, vnis);
      Held(n1.table, p, if h.Runs? then paths else paths[..Unhindered(n1.table, p, paths)])
    case _ => []
  }

  ghost function AllWithdrawn(w: World, hs: seq<Happening>): seq<Path>
    decreases |hs|
  {
    if hs == [] then []
    else
      var before, h := hs[..|hs| - 1], hs[|hs| - 1];
      var mid := WorldAfter(w, before);
      AllWithdrawn(w, before) + if CanHappen(mid, h) then Withdrawn(mid, h) else []
  }

  /** Removing routes that others still have distributes nothing. */
  lemma {:induction false} SilentPurge(n: Node, p: PeerId, order: seq<Path>)
    requires p in n.peers && Distinct(order) && forall x :: x in order ==> !OnlySource(n.table, p, x)
    ensures var r := Purge(n, p, order);
      && r.calls == n.calls + RemoveRoutes(Held(n.table, p, order))
      && (forall q :: q in n.peers ==> q in r.peers && r.peers[q].sent == n.peers[q].sent)
  {
    if order != [] {
      var k := |order| - 1;
      var before, x := order[..k], order[k];
      assert x in order && x !in before;
      SilentPurge(n, p, before);
      PurgeEffect(n, p, before);
      SilentDrop(Purge(n, p, before), p, x, n.table, before);
      RemoveRoutesAppend(Held(n.table, p, before), if Entry(x, Remote(p)) in n.table then [x] else []);
    }
  }

  lemma {:induction false} SilentDrop(m: Node, p: PeerId, x: Path, table: set<Entry>, before: seq<Path>)
    requires p in m.peers && m.table == table - From(p, before) && x !in before && !OnlySource(table, p, x)
    ensures var r := DropRoute(m, p, x);
      && r.calls == m.calls + RemoveRoutes(if Entry(x, Remote(p)) in table then [x] else [])
      && (forall q :: q in m.peers ==> q in r.peers && r.peers[q].sent == m.peers[q].sent)
  {
    OthersDoNotMatter(table, p, before, x);
    assert Entry(x, Remote(p)) in m.table <==> Entry(x, Remote(p)) in table;
    assert RemoveRoutes([x]) == [RemoveRoute(x)] && RemoveRoutes([]) == [];
  }

  lemma {:induction false} UnhinderedAre(table: set<Entry>, p: PeerId, order: seq<Path>)
    ensures forall x :: x in order[..Unhindered(table, p, order)] ==> !OnlySource(table, p, x)
    ensures Unhindered(table, p, order) < |order| ==> OnlySource(table, p, order[Unhindered(table, p, order)])
    ensures (exists x :: x in order && OnlySource(table, p, x)) ==> Unhindered(table, p, order) < |order|
  {
    hide OnlySource;
    if order != [] && !OnlySource(table, p, order[0]) {
      UnhinderedAre(table, p, order[1..]);
      var k := Unhindered(table, p, order[1..]);
      assert order[..k + 1] == [order[0]] + order[1..][..k];
      assert order == [order[0]] + order[1..];
    }
  }

  // One happening

  /** What a happening may add to the hop keys of the announcements. */
  function Offers(h: Happening): set<Path> {
    if h.e.EvAnnounce? || h.e.EvProbe? then {h.e.path} else {}
  }

  /** The tuple a peer's last ADD leaves behind. */
  function LeftBehind(h: Happening): set<Entry> {
    if h.Waits? && h.e.EvUpdate? && h.e.action == ADD then {Entry(h.e.path, Remote(h.e.p))} else {}
  }

  ghost predicate Stuck(n: Node, h: Happening, r: Node, withdrawn: seq<Path>) {
    && r.locked && r.subs == n.subs
    && r.table <= n.table + LeftBehind(h)
    && r.announcedHops <= n.announcedHops + Offers(h)
    && Quietly(n, r, n.announcedHops)
    && r.calls == n.calls + RemoveRoutes(withdrawn)
  }

  lemma {:induction false} StuckSetState(n: Node, p: PeerId, state: ConnState, vnis: seq<VNI>, paths: seq<Path>, purges: PurgeOrder)
    requires n.locked && p in n.peers && CanSetState(n, p, state, vnis, paths, purges)
    ensures var r := SetState(n, p, state, vnis, paths, purges);
      && r.locked && r.subs == n.subs && r.table == n.table && r.announcedHops == n.announcedHops && r.calls == n.calls
      && Quietly(n, r, n.announcedHops)
  {
    var n1 := n.(peers := n.peers[p := n.peers[p].(state := state)]);
    SameStreams(n, n1);
    QuietlyTransitive(n, n1, n1, {}, n.announcedHops);
    if state.Established? && state != n.peers[p].state {
      var n2 := SendSubscriptions(n1, p, vnis);
      var r := SendAnnouncements(n2, p, paths);
      SubscriptionsOnlySend(n1, p, vnis);
      AnnouncementsOnlySend(n2, p, paths);
      SubscriptionsSendNoUpdate(n1, p, vnis);
      AnnouncementsSendAdds(n2, p, paths, n.announcedHops);
      QuietlyTransitive(n, n1, n2, {}, n.announcedHops);
      QuietlyTransitive(n, n2, r, n.announcedHops, n.announcedHops);
    }
  }

  lemma {:induction false} StuckUpdate(n: Node, p: PeerId, action: byte, path: Path)
    requires n.locked && Enabled(n, EvUpdate(p, action, path))
    ensures var h := Runs(EvUpdate(p, action, path));
      Stuck(n, h, Step(n, h.e), Withdrawn(World(n, {}), h))
  {
    var r := RxUpdate(n, p, action, path);
    var x := Entry(path, Remote(p));
    if action == REMOVE && x in n.peers[p].received {
      assert n.table - From(p, []) == n.table;
      SilentDrop(n, p, path, n.table, []);
      DropRouteEffect(n, p, path);
      assert Held(n.table, p, [path]) == Held(n.table, p, []) + if x in n.table then [path] else [];
    } else {
      assert r.calls == n.calls && forall q :: q in n.peers ==> r.peers[q].sent == n.peers[q].sent;
    }
    SameStreams(n, r);
    QuietlyTransitive(n, r, r, {}, n.announcedHops);
  }

  lemma {:induction false} StuckPurge(n: Node, p: PeerId, paths: seq<Path>, m: Node)
    requires n.locked && p in m.peers && Distinct(paths) && (forall x :: x in paths ==> !OnlySource(m.table, p, x))
    requires Quietly(n, m, {}) && m.locked && m.subs == n.subs && m.calls == n.calls && m.table <= n.table && m.announcedHops == n.announcedHops
    ensures var r := Purge(m, p, paths);
      && r.locked && r.subs == n.subs && r.table <= n.table && r.announcedHops == n.announcedHops
      && Quietly(n, r, n.announcedHops) && r.calls == n.calls + RemoveRoutes(Held(m.table, p, paths))
  {
    var r := Purge(m, p, paths);
    SilentPurge(m, p, paths);
    PurgeEffect(m, p, paths);
    SameStreams(m, r);
    QuietlyTransitive(n, m, r, {}, {});
    QuietlyTransitive(n, r, r, {}, n.announcedHops);
  }

  lemma {:induction false} AllReceivedPresent(n: Node, p: PeerId, vnis: seq<VNI>, paths: seq<Path>)
    requires Owned(n) && CleanupOrders(n, p, vnis, paths)
    ensures Cleanup(n, p, vnis, paths) == Purge(UnsubscribeAll(n, vnis), p, paths)
  {
    UnsubscribeAllEffect(n, vnis);
    CleanupCompletes(n, p, vnis, paths);
  }

  lemma {:induction false} StuckCleanup(w: World, h: Happening)
    requires w.node.locked && Owned(w.node) && CanHappen(w, h) && h.e.EvCleanup?
    ensures Stuck(w.node, h, Next(w, h).node, Withdrawn(w, h))
  {
    hide OnlySource;
    hide Purge;
    hide Quietly;
    var n := w.node;
    var m := UnsubscribeAll(n, h.e.vnis);
    UnsubscribingSendsNoUpdate(n, h.e.vnis);
    if h.Runs? {
      AllReceivedPresent(n, h.e.p, h.e.vnis, h.e.paths);
      StuckPurge(n, h.e.p, h.e.paths, m);
    } else {
      UnhinderedAre(m.table, h.e.p, h.e.paths);
      var k := Unhindered(m.table, h.e.p, h.e.paths);
      StuckPurge(n, h.e.p, h.e.paths[..k], m);
      StuckDrop(n, Purge(m, h.e.p, h.e.paths[..k]), h.e.p, h.e.paths[k]);
    }
  }

  lemma {:induction false} StuckDrop(n: Node, m: Node, p: PeerId, path: Path)
    requires p in m.peers && m.locked && m.subs == n.subs && m.table <= n.table && m.announcedHops == n.announcedHops
    requires Quietly(n, m, n.announcedHops)
    ensures var r := HaltedDrop(m, p, path);
      && r.locked && r.subs == n.subs && r.table <= n.table && r.announcedHops == n.announcedHops && r.calls == m.calls
      && Quietly(n, r, n.announcedHops)
  {
    var r := HaltedDrop(m, p, path);
    SameStreams(m, r);
    QuietlyTransitive(n, m, r, n.announcedHops, n.announcedHops) by {
      WiderOffer(m, r, {}, n.announcedHops);
    }
  }

  lemma {:induction false} StuckWaits(n: Node, e: Event)
    requires Blocks(n, e) && !e.EvCleanup?
    ensures Stuck(n, Waits(e), Halted(n, e), [])
  {
    hide Distributes;
    var r := Halted(n, e);
    assert RemoveRoutes([]) == [];
    SameStreams(n, r);
    QuietlyTransitive(n, r, r, {}, n.announcedHops);
  }

  lemma MembersSendNoUpdate(n: Node, m: Message, order: seq<PeerId>)
    requires (forall p :: p in order ==> p in n.peers) && !m.Update?
    ensures Quietly(n, SendToMembers(n, m, order), n.announcedHops)
  {
  }

  lemma {:induction false} LocalUnsubscribeIsStuck(n: Node, vni: VNI)
    ensures var r := LocalUnsubscribe(n, vni);
      && r.locked == n.locked && r.subs == n.subs && r.table <= n.table && r.announcedHops == n.announcedHops
      && r.calls == n.calls && Quietly(n, r, n.announcedHops)
  {
    LocalUnsubscribeSendsNoUpdate(n, vni);
    WiderOffer(n, LocalUnsubscribe(n, vni), {}, n.announcedHops);
  }

  lemma {:induction false} StuckStateEvent(n: Node, e: Event)
    requires n.locked && Enabled(n, e) && (e.EvHello? || e.EvSetState?)
    ensures Stuck(n, Runs(e), Step(n, e), [])
  {
    hide SetState;
    hide CanSetState;
    hide Quietly;
    assert RemoveRoutes([]) == [];
    if e.EvHello? {
      var n1 := NoteHello(n, e.p, e.interval, e.isServer);
      SameStreams(n, n1);
      StuckSetState(n1, e.p, HelloReceived, [], [], e.purges);
      QuietlyTransitive(n, n1, Step(n, e), {}, n.announcedHops);
    } else {
      StuckSetState(n, e.p, e.state, e.vnis, e.paths, e.purges);
    }
  }

  lemma {:induction false} StuckRuns(n: Node, e: Event)
    requires n.locked && Enabled(n, e) && !e.EvCleanup? && !e.EvUpdate? && !e.EvHello? && !e.EvSetState?
    ensures Stuck(n, Runs(e), Step(n, e), [])
  {
    hide SendToMembers;
    hide LocalUnsubscribe;
    assert RemoveRoutes([]) == [];
    hide RemoveRoutes;
    WiderOffer(n, n, {}, n.announcedHops);
    match e
    case EvLocalSubscribe(vni, order) =>
      var n1 := n.(mySubs := n.mySubs + {vni});
      MembersOnlySend(n1, Subscribe(vni), order);
      MembersSendNoUpdate(n1, Subscribe(vni), order);
    case EvLocalUnsubscribe(vni) => LocalUnsubscribeIsStuck(n, vni);
    case _ =>
  }

  lemma {:induction false} StuckHappening(w: World, h: Happening)
    requires w.node.locked && Owned(w.node) && CanHappen(w, h)
    ensures Stuck(w.node, h, Next(w, h).node, Withdrawn(w, h))
  {
    hide Stuck;
    hide Enabled;
    hide Blocks;
    hide Step;
    hide Halted;
    if h.e.EvCleanup? {
      StuckCleanup(w, h);
    } else if h.Waits? {
      StuckWaits(w.node, h.e);
    } else if h.e.EvUpdate? {
      StuckUpdate(w.node, h.e.p, h.e.action, h.e.path);
    } else if h.e.EvHello? || h.e.EvSetState? {
      StuckStateEvent(w.node, h.e);
    } else {
      StuckRuns(w.node, h.e);
    }
  }

  lemma {:induction false} StillSourced(n: Node, r: Node, p: PeerId, gone: set<Entry>, x: Path)
    requires Entry(x, Remote(p)) in n.table && !OnlySource(n.table, p, x)
    requires r.table == n.table - gone && forall e :: e in gone ==> e.source == Remote(p)
    ensures HasSource(r.table, x)
  {
    var s :| Entry(x, s) in n.table - {Entry(x, Remote(p))};
    assert Entry(x, s) in r.table;
  }

  lemma {:induction false} WithdrawnByUpdate(w: World, h: Happening, x: Path)
    requires w.node.locked && CanHappen(w, h) && h.e.EvUpdate? && x in Withdrawn(w, h)
    ensures HasSource(Next(w, h).node.table, x)
  {
    hide OnlySource;
    hide HasSource;
    hide DropRoute;
    var p := h.e.p;
    HeldAre(w.node.table, p, [h.e.path]);
    DropRouteEffect(w.node, p, h.e.path);
    StillSourced(w.node, Next(w, h).node, p, {Entry(x, Remote(p))}, x);
  }

  lemma {:induction false} CleanupTable(w: World, h: Happening) returns (order: seq<Path>, gone: set<Entry>)
    requires w.node.locked && Owned(w.node) && CanHappen(w, h) && h.e.EvCleanup?
    ensures var n1 := UnsubscribeAll(w.node, h.e.vnis);
      && Withdrawn(w, h) == Held(n1.table, h.e.p, order)
      && (forall x :: x in order ==> !OnlySource(n1.table, h.e.p, x))
      && Next(w, h).node.table == n1.table - gone && forall e :: e in gone ==> e.source == Remote(h.e.p)
  {
    hide OnlySource;
    hide Purge;
    var p, paths := h.e.p, h.e.paths;
    var n1 := UnsubscribeAll(w.node, h.e.vnis);
    UnhinderedAre(n1.table, p, paths);
    UnsubscribingKeepsTheLock(w.node, h.e.vnis);
    var k := Unhindered(n1.table, p, paths);
    if h.Runs? {
      AllReceivedPresent(w.node, p, h.e.vnis, paths);
      PurgeEffect(n1, p, paths);
      order, gone := paths, From(p, paths);
    } else {
      PurgeEffect(n1, p, paths[..k]);
      order, gone := paths[..k], From(p, paths[..k]) + {Entry(paths[k], Remote(p))};
    }
  }

  /** The client is told to drop a hop that the table still has. */
  lemma {:induction false} WithdrawnStillSourced(w: World, h: Happening, x: Path)
    requires w.node.locked && Owned(w.node) && CanHappen(w, h) && x in Withdrawn(w, h)
    ensures HasSource(Next(w, h).node.table, x)
  {
    if h.e.EvUpdate? {
      WithdrawnByUpdate(w, h, x);
    } else {
      hide CanHappen;
      hide Next;
      var order, gone := CleanupTable(w, h);
      var n1 := UnsubscribeAll(w.node, h.e.vnis);
      HeldAre(n1.table, h.e.p, order);
      StillSourced(n1, Next(w, h).node, h.e.p, gone, x);
    }
  }

  // Ownership goes on holding

  lemma HaltedDropKeepsOwned(n: Node, p: PeerId, path: Path)
    requires Owned(n) && p in n.peers
    ensures Owned(HaltedDrop(n, p, path))
  {
  }

  lemma {:induction false} HaltedCleanupKeepsOwned(n: Node, p: PeerId, vnis: seq<VNI>, paths: seq<Path>)
    requires Owned(n) && Blocks(n, EvCleanup(p, vnis, paths))
    ensures Owned(Halted(n, EvCleanup(p, vnis, paths)))
  {
    hide Purge;
    hide OnlySource;
    hide HaltedDrop;
    hide Owned;
    var m := UnsubscribeAll(n, vnis);
    UnsubscribeAllEffect(n, vnis);
    var k := Unhindered(m.table, p, paths);
    UnhinderedAre(m.table, p, paths);
    PurgeEffect(m, p, paths[..k]);
    DroppedKeepsOwned(m, Purge(m, p, paths[..k]), p, From(p, paths[..k]));
    HaltedDropKeepsOwned(Purge(m, p, paths[..k]), p, paths[k]);
  }

  lemma {:induction false} HaltedKeepsOwned(n: Node, e: Event)
    requires Owned(n) && Blocks(n, e)
    ensures Owned(Halted(n, e))
  {
    hide Distributes;
    hide HaltedDrop;
    hide HaltedPurge;
    if e.EvCleanup? {
      HaltedCleanupKeepsOwned(n, e.p, e.vnis, e.paths);
    } else if e.EvUpdate? {
      HaltedDropKeepsOwned(n, e.p, e.path);
    }
  }

  lemma {:induction false} HappeningKeepsOwned(w: World, h: Happening)
    requires Owned(w.node) && CanHappen(w, h)
    ensures Owned(Next(w, h).node)
  {
    if h.Runs? {
      OwnedStep(w.node, h.e);
    } else {
      HaltedKeepsOwned(w.node, h.e);
    }
  }

  // Whole runs

  ghost function AllOffers(n: Node, hs: seq<Happening>): set<Path> {
    n.announcedHops + (set h | h in hs && (h.e.EvAnnounce? || h.e.EvProbe?) :: h.e.path)
  }

  /** What holds of every continuation `w` of a run that ended in `n` with the lock held. */
  ghost predicate Wedged(n: Node, hs: seq<Happening>, w: World, withdrawn: seq<Path>) {
    var r := w.node;
    && r.locked && r.subs == n.subs
    && (forall x :: x in r.table && x !in n.table ==> x.source.Remote? && x.source.id in w.hung)
    && (forall x, y :: x in r.table && x !in n.table && y in r.table && y !in n.table && x.source == y.source ==> x == y)
    && Quietly(n, r, AllOffers(n, hs))
    && r.announcedHops <= AllOffers(n, hs)
    && r.calls == n.calls + RemoveRoutes(withdrawn)
  }

  lemma {:induction false} WedgedStep(n: Node, hs: seq<Happening>, w: World, h: Happening, withdrawn: seq<Path>)
    requires Owned(w.node) && Wedged(n, hs, w, withdrawn) && CanHappen(w, h)
    ensures Wedged(n, hs + [h], Next(w, h), withdrawn + Withdrawn(w, h))
  {
    hide Quietly;
    hide Enabled;
    hide Blocks;
    hide Step;
    hide Halted;
    StuckHappening(w, h);
    RemoveRoutesAppend(withdrawn, Withdrawn(w, h));
    hide Withdrawn;
    hide RemoveRoutes;
    assert AllOffers(n, hs + [h]) == AllOffers(n, hs) + Offers(h);
    var r := Next(w, h).node;
    WiderOffer(w.node, r, w.node.announcedHops, AllOffers(n, hs + [h]));
    WiderOffer(n, w.node, AllOffers(n, hs), AllOffers(n, hs + [h]));
    QuietlyTransitive(n, w.node, r, AllOffers(n, hs + [h]), AllOffers(n, hs + [h]));
  }

  lemma {:induction false} WiderOffer(n: Node, r: Node, a: set<Path>, b: set<Path>)
    requires a <= b && (Quietly(n, r, a) || n == r)
    ensures Quietly(n, r, b)
  {
    if n == r {
      SameStreams(n, r);
    }
  }

  /**
   * Once the lock is held, whatever happens next: subscriber sets never change;
   * each peer adds at most one route, and its handler hangs; no received route
   * is distributed, the only UPDATEs sent being the node's own announcements to
   * a peer that becomes ESTABLISHED; and the client's calls are exactly one
   * RemoveRoute for each route that is withdrawn while another peer still has it.
   */
  lemma {:induction false} WedgedForEver(n: Node, hs: seq<Happening>)
    requires n.locked && Owned(n)
    ensures var w := WorldAfter(World(n, {}), hs);
      Owned(w.node) && Wedged(n, hs, w, AllWithdrawn(World(n, {}), hs))
  {
    if hs == [] {
      SameStreams(n, n);
      WiderOffer(n, n, {}, AllOffers(n, hs));
      assert RemoveRoutes([]) == [];
    } else {
      var k := |hs| - 1;
      var before, h := hs[..k], hs[k];
      WedgedForEver(n, before);
      var mid := WorldAfter(World(n, {}), before);
      assert hs == before + [h];
      if CanHappen(mid, h) {
        HappeningKeepsOwned(mid, h);
        WedgedStep(n, before, mid, h, AllWithdrawn(World(n, {}), before));
      } else {
        WiderOffer(n, mid.node, AllOffers(n, before), AllOffers(n, hs));
      }
    }
  }
}
