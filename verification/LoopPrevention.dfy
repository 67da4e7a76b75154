/**
 * The loop-prevention check of addReceivedRoute and the start-up order that
 * cmd/metalbond/main.go relies on: announce first, then add peers.
 */
module LoopPrevention {
  import opened Types
  import opened Engine
  import opened Ownership

  /** The node itself announces some hop for this destination. */
  ghost predicate AnnouncedLocally(n: Node, vni: VNI, dest: Destination) {
    exists p :: p in n.announced && p.vni == vni && p.dest == dest
  }

  /** No STANDARD hop is stored for a destination the node announces itself. */
  ghost predicate Guarded(n: Node) {
    forall e :: e in n.table && e.path.hop.kind == STANDARD ==> !AnnouncedLocally(n, e.path.vni, e.path.dest)
  }

  /**
   * Asking IsRouteAnnounced about a route that is not announced makes the node
   * refuse STANDARD routes for that destination from then on.
   */
  lemma {:induction false} ProbeBlocksStandardRoutes(n: Node, asked: Path, from: PeerId, path: Path)
    requires from in n.peers && Entry(path, Remote(from)) !in n.table
    requires path.hop.kind == STANDARD && path.vni == asked.vni && path.dest == asked.dest
    ensures AddReceived(Probe(n, asked), from, path) == Probe(n, asked)
  {
    assert asked in Probe(n, asked).announcedHops;
  }

  // What one step may add

  lemma {:induction false} SetStateTable(n: Node, p: PeerId, state: ConnState, vnis: seq<VNI>, paths: seq<Path>, purges: PurgeOrder)
    requires Owned(n) && p in n.peers && CanSetState(n, p, state, vnis, paths, purges)
    ensures var r := SetState(n, p, state, vnis, paths, purges);
      r.table <= n.table && r.announced == n.announced && r.announcedHops == n.announcedHops
  {
    var n1 := n.(peers := n.peers[p := n.peers[p].(state := state)]);
    if state.Established? {
      SubscriptionsOnlySend(n1, p, vnis);
      AnnouncementsOnlySend(SendSubscriptions(n1, p, vnis), p, paths);
    } else if state != n.peers[p].state {
      ConnectionLost(n, p, state, vnis, paths, purges);
      RemoveSubscriptionsAnnounced(n1, p, purges);
    }
  }

  lemma {:induction false} RemoveSubscriptionsAnnounced(n: Node, p: PeerId, purges: PurgeOrder)
    requires p in n.peers
    ensures var r := RemoveSubscriptions(n, p, purges);
      r.announced == n.announced && r.announcedHops == n.announcedHops
  {
    if purges != [] {
      var before, last := purges[..|purges| - 1], purges[|purges| - 1];
      RemoveSubscriptionsAnnounced(n, p, before);
      PurgeEffect(RemoveSubscriptions(n, p, before), p, last.1);
    }
  }

  lemma {:induction false} UnsubscribeAllAnnounced(n: Node, vnis: seq<VNI>)
    ensures var r := UnsubscribeAll(n, vnis);
      r.announced == n.announced && r.announcedHops == n.announcedHops
  {
    if vnis != [] {
      UnsubscribeAllAnnounced(n, vnis[..|vnis| - 1]);
    }
  }

  /** Only an accepted ADD enlarges the table; only AnnounceRoute enlarges the announcements. */
  ghost predicate Growth(n: Node, e: Event, r: Node) {
    && (forall x :: x in r.table && x !in n.table ==>
          x.path.hop.kind != STANDARD || !AnnouncedAt(n, x.path.vni, x.path.dest))
    && (!e.EvAnnounce? ==> r.announced <= n.announced)
    && (!e.EvProbe? && n.announcedHops == n.announced ==> r.announcedHops == r.announced)
    && (n.announced <= n.announcedHops ==> r.announced <= r.announcedHops)
  }

  lemma {:induction false} UpdateGrowth(n: Node, p: PeerId, action: byte, path: Path)
    requires p in n.peers
    ensures Growth(n, EvUpdate(p, action, path), RxUpdate(n, p, action, path))
  {
    hide AddReceived;
    hide DropRoute;
    if action == REMOVE {
      DropRouteEffect(n, p, path);
    } else {
      AddReceivedEffect(SetReceived(n, p, n.peers[p].received + {Entry(path, Remote(p))}), p, path);
    }
  }

  /** The node's own operations. */
  lemma {:induction false} LocalGrowth(n: Node, e: Event)
    requires Enabled(n, e) && (e.EvLocalSubscribe? || e.EvLocalUnsubscribe? || e.EvAnnounce? || e.EvWithdraw? || e.EvProbe?)
    ensures Growth(n, e, Step(n, e))
  {
    hide SendToMembers;
    match e
    case EvLocalSubscribe(vni, order) =>
      MembersOnlySend(n.(mySubs := n.mySubs + {vni}), Subscribe(vni), order);
    case EvAnnounce(path, order) =>
      MembersOnlySend(n.(announced := n.announced + {path}, announcedHops := n.announcedHops + {path}), Update(ADD, path), order);
    case EvWithdraw(path, order) =>
      MembersOnlySend(n.(announced := n.announced - {path}, announcedHops := n.announcedHops - {path}), Update(REMOVE, path), order);
    case _ =>
  }

  lemma {:induction false} CleanupGrowth(n: Node, p: PeerId, vnis: seq<VNI>, paths: seq<Path>)
    requires Owned(n) && Enabled(n, EvCleanup(p, vnis, paths))
    ensures Growth(n, EvCleanup(p, vnis, paths), Cleanup(n, p, vnis, paths))
  {
    hide Purge;
    CleanupRemovesExactly(n, p, vnis, paths);
    UnsubscribeAllAnnounced(n, vnis);
    var m := UnsubscribeAll(n, vnis);
    PurgeEffect(m, p, paths[..PresentPrefix(m.peers[p].received, p, paths)]);
  }

  lemma {:induction false} StepGrowth(n: Node, e: Event)
    requires Owned(n) && Enabled(n, e)
    ensures Growth(n, e, Step(n, e))
  {
    hide SetState;
    hide RxUpdate;
    hide SendSnapshot;
    hide Purge;
    hide Cleanup;
    hide SendToMembers;
    hide CanSetState;
    match e
    case EvHello(p, interval, isServer, purges) =>
      var n1 := NoteHello(n, p, interval, isServer);
      assert Owned(n1);
      SetStateTable(n1, p, HelloReceived, [], [], purges);
    case EvSetState(p, state, vnis, paths, purges) => SetStateTable(n, p, state, vnis, paths, purges);
    case EvUpdate(p, action, path) => UpdateGrowth(n, p, action, path);
    case EvSubscribe(p, vni, snapshot) => SnapshotOnlySends(Joined(n, p, vni), p, snapshot);
    case EvUnsubscribe(p, vni, paths) => PurgeEffect(n, p, paths);
    case EvCleanup(p, vnis, paths) => CleanupGrowth(n, p, vnis, paths);
    case EvConnect(_, _, _) =>
    case EvForget(_) =>
    case EvSendControl(_, _) =>
    case EvSubscribeEarly(_, _) =>
    case _ => LocalGrowth(n, e);
  }

  // Runs

  lemma {:induction false} AnnouncementsInEveryRun(es: seq<Event>)
    ensures var n := After(InitNode, es);
      && n.announced <= n.announcedHops
      && ((forall e :: e in es ==> !e.EvProbe?) ==> n.announcedHops == n.announced)
  {
    if es != [] {
      var before, e := es[..|es| - 1], es[|es| - 1];
      AnnouncementsInEveryRun(before);
      OwnedInEveryRun(before);
      if Enabled(After(InitNode, before), e) {
        StepGrowth(After(InitNode, before), e);
      }
    }
  }

  lemma {:induction false} NoPeersNoRoutes(es: seq<Event>)
    requires forall e :: e in es ==> !e.EvConnect?
    ensures After(InitNode, es).peers == map[] && After(InitNode, es).table == {}
  {
    OwnedInEveryRun(es);
    if es != [] {
      var before, e := es[..|es| - 1], es[|es| - 1];
      NoPeersNoRoutes(before);
      var mid := After(InitNode, before);
      if Enabled(mid, e) {
        NoPeersAfter(mid, e);
      }
      assert After(InitNode, es).peers == map[];
    }
  }

  lemma {:induction false} NoPeersAfter(n: Node, e: Event)
    requires Enabled(n, e) && !e.EvConnect? && n.peers == map[]
    ensures Step(n, e).peers == map[]
  {
    match e
    case EvLocalSubscribe(vni, order) =>
      EnumeratesNothing(order, n.members);
    case EvAnnounce(path, order) =>
      EnumeratesNothing(order, n.members);
    case EvWithdraw(path, order) =>
      EnumeratesNothing(order, n.members);
    case _ =>
  }

  /**
   * When every announcement is made before the first peer is added, then from
   * then on, whatever happens (withdrawals and IsRouteAnnounced included), the
   * table never holds a STANDARD hop for a destination the node announces.
   */
  lemma {:induction false} AnnounceFirstIsGuarded(setup: seq<Event>, serve: seq<Event>)
    requires forall e :: e in setup ==> !e.EvConnect?
    requires forall e :: e in serve ==> !e.EvAnnounce?
    ensures Guarded(After(InitNode, setup + serve))
  {
    if serve == [] {
      assert setup + serve == setup;
      NoPeersNoRoutes(setup);
    } else {
      var before, e := serve[..|serve| - 1], serve[|serve| - 1];
      AnnounceFirstIsGuarded(setup, before);
      var es := setup + serve;
      assert es[..|es| - 1] == setup + before && es[|es| - 1] == e;
      var mid := After(InitNode, setup + before);
      OwnedInEveryRun(setup + before);
      AnnouncementsInEveryRun(setup + before);
      if Enabled(mid, e) {
        StepGrowth(mid, e);
        var r := Step(mid, e);
        forall x | x in r.table && x.path.hop.kind == STANDARD ensures !AnnouncedLocally(r, x.path.vni, x.path.dest) {
          assert !AnnouncedLocally(mid, x.path.vni, x.path.dest) by {
            if AnnouncedLocally(mid, x.path.vni, x.path.dest) {
              assert AnnouncedAt(mid, x.path.vni, x.path.dest);
            }
          }
        }
      }
    }
  }

  /**
   * Without that order the check is not enough: announcing does not clean the
   * table, so it keeps the guarantee exactly when no STANDARD hop for the
   * destination has been received yet.
   */
  lemma {:induction false} AnnouncingKeepsTheGuardIff(n: Node, path: Path, order: seq<PeerId>)
    requires Guarded(n) && path !in n.announced && Enabled(n, EvAnnounce(path, order))
    ensures Guarded(Step(n, EvAnnounce(path, order))) <==>
      forall e :: e in n.table && e.path.hop.kind == STANDARD ==> !(e.path.vni == path.vni && e.path.dest == path.dest)
  {
    MembersOnlySend(n.(announced := n.announced + {path}, announcedHops := n.announcedHops + {path}), Update(ADD, path), order);
    var r := Step(n, EvAnnounce(path, order));
    assert path in r.announced;
    forall v, d ensures AnnouncedLocally(r, v, d) <==> AnnouncedLocally(n, v, d) || (v == path.vni && d == path.dest) {
      if AnnouncedLocally(n, v, d) {
        var p :| p in n.announced && p.vni == v && p.dest == d;
        assert p in r.announced;
      }
    }
  }
}
