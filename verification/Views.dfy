/**
 * What a subscriber has been told. In every run of a pure server (no
 * subscription and no announcement of its own) the UPDATEs sent to a
 * subscriber since it subscribed, replayed in order, agree with the node's
 * table up to routes the subscriber itself withdrew.
 */
module Views {
  import opened Types
  import opened Engine
  import opened Ownership

  /** Whether `path` is present after the UPDATEs of `msgs` are applied in order to a table that had it iff `base`. */
  function Replay(base: bool, msgs: seq<Message>, path: Path): bool {
    if msgs == [] then base
    else
      var m := msgs[|msgs| - 1];
      if m.Update? && m.path == path && m.action == ADD then true
      else if m.Update? && m.path == path && m.action == REMOVE then false
      else Replay(base, msgs[..|msgs| - 1], path)
  }

  lemma {:induction false} ReplayAppend(base: bool, msgs: seq<Message>, m: Message, path: Path)
    ensures Replay(base, msgs + [m], path) ==
      if m.Update? && m.path == path && m.action == ADD then true
      else if m.Update? && m.path == path && m.action == REMOVE then false
      else Replay(base, msgs, path)
  {
    assert (msgs + [m])[..|msgs|] == msgs;
  }

  /** Replaying what was sent to `s` since it subscribed to the VNI of `path`. */
  ghost predicate View(n: Node, s: PeerId, path: Path)
    requires s in n.peers
  {
    var peer := n.peers[s];
    path.vni in peer.since && peer.since[path.vni] <= |peer.sent| &&
    Replay(false, peer.sent[peer.since[path.vni]..], path)
  }

  ghost predicate OtherSource(n: Node, s: PeerId, path: Path) {
    exists q :: q != s && Entry(path, Remote(q)) in n.table
  }

  /** Routes a subscriber was not told because they came before it was ESTABLISHED. */
  type Missed = set<(PeerId, Path)>

  /**
   * The subscriber has been told every hop that somebody else sources and that
   * it has not missed; a hop it was told that has no source left was last
   * withdrawn by the subscriber itself.
   */
  ghost predicate Faithful(n: Node, v: VNI, s: PeerId, missed: Missed)
    requires s in n.peers
  {
    forall path: Path :: path.vni == v ==>
      && (OtherSource(n, s, path) && (s, path) !in missed ==> View(n, s, path))
      && (View(n, s, path) && !HasSource(n.table, path) ==>
            path in n.lastWithdrawn && n.lastWithdrawn[path] == s)
  }

  ghost predicate PureServer(n: Node) {
    n.mySubs == {} && n.announcedHops == {}
  }

  /** The subscriber has been told nothing about the VNI. */
  ghost predicate ToldNothing(n: Node, v: VNI, s: PeerId)
    requires s in n.peers
  {
    forall path: Path :: path.vni == v ==> !View(n, s, path)
  }

  /** A subscriber that is not ESTABLISHED waits; the view of one that is is faithful; what it missed it was not told. */
  ghost predicate Served(n: Node, v: VNI, s: PeerId, missed: Missed) {
    && s in n.peers
    && v in n.peers[s].since && n.peers[s].since[v] <= |n.peers[s].sent|
    && (!n.peers[s].state.Established? ==> ToldNothing(n, v, s))
    && (n.peers[s].state.Established? && !n.peers[s].isServer ==> Faithful(n, v, s, missed))
    && (forall path: Path :: path.vni == v && (s, path) in missed ==> !View(n, s, path))
  }

  /** All subscriptions are served, those of `except` aside. */
  ghost predicate Told(n: Node, except: set<PeerId>, missed: Missed) {
    && (forall e :: e in n.table ==> e.path.dest.ipVersion in {IPV4, IPV6})
    && (forall v, s :: (v, s) in n.subs && s !in except ==> Served(n, v, s, missed))
    && (forall v, s :: (v, s) in n.subs ==> s in n.peers)
  }

  // How single operations change a view

  lemma {:induction false} ViewAfterSend(n: Node, r: Node, s: PeerId, m: Message, path: Path)
    requires s in n.peers && s in r.peers
    requires r.peers[s].since == n.peers[s].since
    requires r.peers[s].sent == n.peers[s].sent + [m]
    requires path.vni in n.peers[s].since && n.peers[s].since[path.vni] <= |n.peers[s].sent|
    ensures View(r, s, path) ==
      if m.Update? && m.path == path && m.action == ADD then true
      else if m.Update? && m.path == path && m.action == REMOVE then false
      else View(n, s, path)
  {
    var k := n.peers[s].since[path.vni];
    assert r.peers[s].sent[k..] == n.peers[s].sent[k..] + [m];
    ReplayAppend(false, n.peers[s].sent[k..], m, path);
  }

  /** Those an ADD is told to. */
  ghost function Hearers(n: Node, from: PeerId, path: Path): set<PeerId>
    requires from in n.peers
  {
    set q | q in Targets(n, path.vni, from) && n.peers[q].state.Established?
  }

  ghost function Heard(missed: Missed, hearers: set<PeerId>, path: Path): Missed {
    set m | m in missed && !(m.0 in hearers && m.1 == path)
  }

  lemma {:induction false} AddIsTold(n: Node, from: PeerId, path: Path, v: VNI, s: PeerId, missed: Missed)
    requires from in n.peers && (v, s) in n.subs && Served(n, v, s, missed)
    requires path.dest.ipVersion in {IPV4, IPV6}
    requires Entry(path, Remote(from)) !in n.table
    ensures var n1 := n.(table := n.table + {Entry(path, Remote(from))});
      Served(Distribute(n1, ADD, path, from), v, s, Heard(missed, Hearers(n, from, path), path))
  {
    var n1 := n.(table := n.table + {Entry(path, Remote(from))});
    var r := Distribute(n1, ADD, path, from);
    var now := Heard(missed, Hearers(n, from, path), path);
    assert Targets(n1, path.vni, from) == Targets(n, path.vni, from);
    forall x: Path | x.vni == v
      ensures View(r, s, x) == if s in Hearers(n, from, path) && x == path then true else View(n, s, x)
    {
      if s in Hearers(n, from, path) {
        ViewAfterSend(n, r, s, Update(ADD, path), x);
      } else {
        assert r.peers[s] == n.peers[s];
      }
    }
    if n.peers[s].state.Established? && !n.peers[s].isServer {
      forall x: Path | x.vni == v
        ensures OtherSource(r, s, x) && (s, x) !in now ==> View(r, s, x)
        ensures View(r, s, x) && !HasSource(r.table, x) ==> x in r.lastWithdrawn && r.lastWithdrawn[x] == s
      {
        if OtherSource(r, s, x) && !OtherSource(n, s, x) {
          assert x == path && from != s;
        }
        if HasSource(n.table, x) {
          var src :| Entry(x, src) in n.table;
          assert Entry(x, src) in r.table;
        }
        if x == path {
          assert Entry(x, Remote(from)) in r.table;
        }
      }
    }
  }

  lemma {:induction false} RemoveIsTold(n: Node, from: PeerId, path: Path, v: VNI, s: PeerId, missed: Missed)
    requires from in n.peers && (v, s) in n.subs && Served(n, v, s, missed)
    requires path.dest.ipVersion in {IPV4, IPV6}
    ensures Served(RemoveReceived(n, from, path), v, s, missed)
  {
    var r := RemoveReceived(n, from, path);
    if Entry(path, Remote(from)) in n.table {
      forall x: Path | x.vni == v
        ensures View(r, s, x) ==> View(n, s, x)
        ensures x != path ==> View(r, s, x) == View(n, s, x)
        ensures HasSource(r.table, path) ==> View(r, s, x) == View(n, s, x)
        ensures !HasSource(r.table, path) && View(r, s, path) && n.peers[s].state.Established? && !n.peers[s].isServer && v == path.vni ==> from == s
      {
        if r.peers[s].sent != n.peers[s].sent {
          ViewAfterSend(n, r, s, Update(REMOVE, path), x);
        }
      }
      forall x: Path | x.vni == v
        ensures OtherSource(r, s, x) ==> OtherSource(n, s, x) && HasSource(r.table, x)
        ensures x != path && HasSource(n.table, x) ==> HasSource(r.table, x)
      {
        if OtherSource(r, s, x) {
          var q :| q != s && Entry(x, Remote(q)) in r.table;
          assert OtherSource(n, s, x) && HasSource(r.table, x);
        }
        if x != path && HasSource(n.table, x) {
          var src :| Entry(x, src) in n.table;
          assert Entry(x, src) in r.table;
        }
      }
    }
  }

  /** A view depends only on the table, the withdrawals and the subscriber's own stream. */
  lemma {:induction false} SameView(n: Node, r: Node, v: VNI, s: PeerId, missed: Missed, now: Missed)
    requires Served(n, v, s, missed) && s in r.peers
    requires r.table == n.table && r.lastWithdrawn == n.lastWithdrawn
    requires r.peers[s].sent == n.peers[s].sent && r.peers[s].since == n.peers[s].since
    requires r.peers[s].state == n.peers[s].state
    requires r.peers[s].isServer == n.peers[s].isServer || !n.peers[s].state.Established?
    requires forall x: Path :: x.vni == v ==> ((s, x) in now <==> (s, x) in missed)
    ensures Served(r, v, s, now)
  {
    forall x: Path | x.vni == v
      ensures View(r, s, x) == View(n, s, x)
      ensures OtherSource(r, s, x) == OtherSource(n, s, x)
    {
    }
  }

  lemma {:induction false} AddKeepsTold(n: Node, from: PeerId, path: Path, except: set<PeerId>, missed: Missed)
    requires Told(n, except, missed) && from in n.peers && AddReceived(n, from, path) != n
    requires path.dest.ipVersion in {IPV4, IPV6}
    ensures Told(AddReceived(n, from, path), except, Heard(missed, Hearers(n, from, path), path))
  {
    var r := AddReceived(n, from, path);
    var now := Heard(missed, Hearers(n, from, path), path);
    var n1 := n.(table := n.table + {Entry(path, Remote(from))});
    var n2 := Distribute(n1, ADD, path, from);
    forall v, s | (v, s) in r.subs && s !in except ensures Served(r, v, s, now) {
      AddIsTold(n, from, path, v, s, missed);
      SameView(n2, r, v, s, now, now);
    }
  }

  lemma {:induction false} DropKeepsTold(n: Node, p: PeerId, path: Path, except: set<PeerId>, missed: Missed)
    requires Told(n, except, missed) && p in n.peers
    requires path.dest.ipVersion in {IPV4, IPV6} || Entry(path, Remote(p)) !in n.table
    ensures Told(DropRoute(n, p, path), except, missed)
  {
    var n1 := SetReceived(n, p, n.peers[p].received - {Entry(path, Remote(p))});
    var r := DropRoute(n, p, path);
    forall v, s | (v, s) in r.subs && s !in except ensures Served(r, v, s, missed) {
      SameView(n, n1, v, s, missed, missed);
      if r != n1 {
        RemoveIsTold(n1, p, path, v, s, missed);
      }
    }
  }

  lemma {:induction false} PurgeKeepsTold(n: Node, p: PeerId, order: seq<Path>, except: set<PeerId>, missed: Missed)
    requires Told(n, except, missed) && p in n.peers
    ensures Told(Purge(n, p, order), except, missed)
  {
    if order != [] {
      var before, x := order[..|order| - 1], order[|order| - 1];
      PurgeKeepsTold(n, p, before, except, missed);
      var m := Purge(n, p, before);
      if Entry(x, Remote(p)) in m.table {
        assert x.dest.ipVersion in {IPV4, IPV6};
      }
      DropKeepsTold(m, p, x, except, missed);
    }
  }

  lemma {:induction false} RemoveSubscriberKeepsTold(n: Node, p: PeerId, vni: VNI, order: seq<Path>, except: set<PeerId>, missed: Missed)
    requires Told(n, except, missed) && p in n.peers
    ensures Told(RemoveSubscriber(n, p, vni, order), except, missed)
  {
    if (vni, p) in n.subs {
      PurgeKeepsTold(n, p, order, except, missed);
      var m, r := Purge(n, p, order), RemoveSubscriber(n, p, vni, order);
      forall v, s | (v, s) in r.subs && s !in except ensures Served(r, v, s, missed) {
        SameView(m, r, v, s, missed, missed);
      }
    }
  }

  lemma {:induction false} RemoveSubscriptionsKeepsTold(n: Node, p: PeerId, purges: PurgeOrder, except: set<PeerId>, missed: Missed)
    requires Told(n, except, missed) && p in n.peers
    ensures Told(RemoveSubscriptions(n, p, purges), except, missed)
  {
    if purges != [] {
      var before, last := purges[..|purges| - 1], purges[|purges| - 1];
      RemoveSubscriptionsKeepsTold(n, p, before, except, missed);
      RemoveSubscriberKeepsTold(RemoveSubscriptions(n, p, before), p, last.0, last.1, except, missed);
    }
  }

  /** The routes of its VNIs that others have when `p` becomes ESTABLISHED. */
  ghost function Overlooked(n: Node, p: PeerId): Missed {
    set x | x in n.table && (x.path.vni, p) in n.subs && x.source != Remote(p) :: (p, x.path)
  }

  lemma {:induction false} OverlookedAre(n: Node, p: PeerId, path: Path)
    requires forall e :: e in n.table ==> e.source.Remote?
    ensures (p, path) in Overlooked(n, p) <==> (path.vni, p) in n.subs && OtherSource(n, p, path)
  {
    if OtherSource(n, p, path) {
      var q :| q != p && Entry(path, Remote(q)) in n.table;
      assert Entry(path, Remote(q)).path == path;
    }
    if (p, path) in Overlooked(n, p) {
      var x :| x in n.table && (x.path.vni, p) in n.subs && x.source != Remote(p) && x.path == path;
      assert Entry(path, Remote(x.source.id)) in n.table;
    }
  }

  ghost predicate NothingOwn(n: Node, p: PeerId, vnis: seq<VNI>, paths: seq<Path>, purges: PurgeOrder)
  {
    && PureServer(n) && p in n.peers && (forall e :: e in n.table ==> e.source.Remote?)
    && CanSetState(n, p, Established, vnis, paths, purges)
  }

  lemma {:induction false} EstablishedQuietly(n: Node, p: PeerId, vnis: seq<VNI>, paths: seq<Path>, purges: PurgeOrder)
    requires NothingOwn(n, p, vnis, paths, purges)
    ensures SetState(n, p, Established, vnis, paths, purges) == n.(peers := n.peers[p := n.peers[p].(state := Established)])
  {
    EnumeratesNothing(vnis, n.mySubs);
    EnumeratesNothing(paths, n.announcedHops);
  }

  lemma {:induction false} EstablishKeepsTold(n: Node, p: PeerId, vnis: seq<VNI>, paths: seq<Path>, purges: PurgeOrder, missed: Missed)
    requires NothingOwn(n, p, vnis, paths, purges) && Told(n, {}, missed)
    ensures Told(SetState(n, p, Established, vnis, paths, purges), {},
      if n.peers[p].state.Established? then missed else missed + Overlooked(n, p))
  {
    var r := SetState(n, p, Established, vnis, paths, purges);
    var now := if n.peers[p].state.Established? then missed else missed + Overlooked(n, p);
    EstablishedQuietly(n, p, vnis, paths, purges);
    forall v, s | (v, s) in r.subs ensures Served(r, v, s, now) {
      if s == p && !n.peers[p].state.Established? {
        forall x: Path | x.vni == v
          ensures !View(r, p, x) && (OtherSource(r, p, x) ==> (p, x) in now)
        {
          assert View(r, p, x) == View(n, p, x) && OtherSource(r, p, x) == OtherSource(n, p, x);
          OverlookedAre(n, p, x);
        }
      } else {
        SameView(n, r, v, s, missed, now);
      }
    }
  }

  /**
   * A subscriber that asked too early has a faithful view once it is
   * ESTABLISHED if and only if nobody else has a route in the VNI by then.
   */
  lemma {:induction false} EarlySubscriberServedIff(n: Node, s: PeerId, v: VNI, vnis: seq<VNI>, paths: seq<Path>, purges: PurgeOrder)
    requires NothingOwn(n, s, vnis, paths, purges) && !n.peers[s].state.Established? && !n.peers[s].isServer
    requires (v, s) in n.subs && Served(n, v, s, {})
    ensures Served(SetState(n, s, Established, vnis, paths, purges), v, s, {}) <==>
      forall path: Path :: path.vni == v ==> !OtherSource(n, s, path)
  {
    var r := SetState(n, s, Established, vnis, paths, purges);
    EstablishedQuietly(n, s, vnis, paths, purges);
    forall x: Path | x.vni == v
      ensures View(r, s, x) == View(n, s, x) == false && OtherSource(r, s, x) == OtherSource(n, s, x)
    {
    }
  }

  /** The subscriptions of the peer that is lost need not be served: they end here. */
  lemma {:induction false} LossKeepsTold(n: Node, p: PeerId, state: ConnState, vnis: seq<VNI>, paths: seq<Path>, purges: PurgeOrder, missed: Missed)
    requires Owned(n) && p in n.peers && Told(n, {p}, missed)
    requires state == n.peers[p].state ==> Told(n, {}, missed)
    requires !state.Established? && CanSetState(n, p, state, vnis, paths, purges)
    ensures Told(SetState(n, p, state, vnis, paths, purges), {}, missed)
  {
    var n1 := n.(peers := n.peers[p := n.peers[p].(state := state)]);
    if state != n.peers[p].state {
      forall v, s | (v, s) in n1.subs && s !in {p} ensures Served(n1, v, s, missed) {
        SameView(n, n1, v, s, missed, missed);
      }
      RemoveSubscriptionsKeepsTold(n1, p, purges, {p}, missed);
      ConnectionLost(n, p, state, vnis, paths, purges);
    } else {
      assert n.peers[p := n.peers[p]] == n.peers;
    }
  }

  // A new subscription

  ghost predicate Announced(p: PeerId, order: seq<Entry>, path: Path) {
    exists e :: e in order && !Skipped(p, e) && e.path == path
  }

  lemma {:induction false} AnnouncedAppend(p: PeerId, order: seq<Entry>, e: Entry, path: Path)
    ensures Announced(p, order + [e], path) <==> Announced(p, order, path) || (!Skipped(p, e) && e.path == path)
  {
    if Announced(p, order, path) {
      var e' :| e' in order && !Skipped(p, e') && e'.path == path;
      assert e' in order + [e];
    }
    if !Skipped(p, e) && e.path == path {
      assert e in order + [e];
    }
  }

  lemma {:induction false} SnapshotView(n: Node, p: PeerId, order: seq<Entry>, k: nat, path: Path)
    requires p in n.peers && n.peers[p].state.Established?
    requires forall e :: e in order ==> e.path.dest.ipVersion in {IPV4, IPV6}
    requires k <= |n.peers[p].sent|
    ensures var r := SendSnapshot(n, p, order);
      && k <= |r.peers[p].sent|
      && Replay(false, r.peers[p].sent[k..], path) ==
           (Announced(p, order, path) || Replay(false, n.peers[p].sent[k..], path))
  {
    hide Replay;
    if order != [] {
      var before, e := order[..|order| - 1], order[|order| - 1];
      assert order == before + [e];
      SnapshotView(n, p, before, k, path);
      SnapshotOnlySends(n, p, before);
      var m, r := SendSnapshot(n, p, before), SendSnapshot(n, p, order);
      AnnouncedAppend(p, before, e, path);
      if !Skipped(p, e) {
        assert r == Push(m, p, Update(ADD, e.path));
        assert r.peers[p].sent[k..] == m.peers[p].sent[k..] + [Update(ADD, e.path)];
        ReplayAppend(false, m.peers[p].sent[k..], Update(ADD, e.path), path);
      }
    }
  }

  lemma {:induction false} SubscribeKeepsTold(n: Node, p: PeerId, vni: VNI, snapshot: seq<Entry>, missed: Missed)
    requires Told(n, {}, missed) && Enabled(n, EvSubscribe(p, vni, snapshot))
    requires forall m :: m in missed ==> (m.1.vni, m.0) in n.subs
    requires forall e :: e in n.table ==> e.source.Remote?
    ensures Told(RxSubscribe(n, p, vni, snapshot), {}, missed)
  {
    var r := RxSubscribe(n, p, vni, snapshot);
    var n1 := Joined(n, p, vni);
    if (vni, p) !in n.subs {
      SnapshotOnlySends(n1, p, snapshot);
      SnapshotLeavesOthers(n1, p, snapshot);
    }
    forall e | e in snapshot ensures e in n.table && e.path.vni == vni {
      assert e in SnapshotAt(n, vni);
    }
    forall v, s | (v, s) in r.subs ensures Served(r, v, s, missed) {
      if (vni, p) in n.subs || s != p {
        SameView(n, r, v, s, missed, missed);
      } else if v != vni {
        assert (v, s) in n.subs;
        OldSubscriptionServed(n, n1, r, p, vni, v, snapshot, missed);
      } else {
        NewSubscriptionServed(n, n1, r, p, vni, snapshot, missed);
      }
    }
  }

  /** A SUBSCRIBE ahead of ESTABLISHED: the subscriber waits and has been told nothing. */
  lemma {:induction false} EarlyKeepsTold(n: Node, p: PeerId, vni: VNI, missed: Missed)
    requires Told(n, {}, missed) && p in n.peers && !n.peers[p].state.Established?
    ensures Told(Joined(n, p, vni), {}, missed)
  {
    var r := Joined(n, p, vni);
    forall v, s | (v, s) in r.subs ensures Served(r, v, s, missed) {
      if s != p {
        SameView(n, r, v, s, missed, missed);
      } else {
        assert (v, s) in n.subs || v == vni;
        forall x: Path | x.vni == v ensures !View(r, s, x) {
          if v == vni {
            assert r.peers[s].sent[|r.peers[s].sent|..] == [];
          } else {
            assert View(r, s, x) == View(n, s, x);
          }
        }
      }
    }
  }

  lemma {:induction false} SnapshotLeavesOthers(n: Node, p: PeerId, order: seq<Entry>)
    requires p in n.peers
    ensures forall q :: q in n.peers && q != p ==> SendSnapshot(n, p, order).peers[q] == n.peers[q]
    ensures SendSnapshot(n, p, order).calls == n.calls
  {
    if order != [] {
      SnapshotLeavesOthers(n, p, order[..|order| - 1]);
    }
  }

  lemma {:induction false} OldSubscriptionServed(n: Node, n1: Node, r: Node, p: PeerId, vni: VNI, v: VNI, snapshot: seq<Entry>, missed: Missed)
    requires p in n.peers && n.peers[p].state.Established? && Served(n, v, p, missed) && v != vni
    requires n1.peers.Keys == n.peers.Keys && n1.table == n.table && n1.lastWithdrawn == n.lastWithdrawn
    requires n1.peers[p] == n.peers[p].(subscribedVNIs := n1.peers[p].subscribedVNIs, since := n.peers[p].since[vni := |n.peers[p].sent|])
    requires r == SendSnapshot(n1, p, snapshot) && OnlySends(n1, r)
    requires forall e :: e in snapshot ==> e in n.table && e.path.vni == vni && e.path.dest.ipVersion in {IPV4, IPV6}
    ensures Served(r, v, p, missed)
  {
    var k := n.peers[p].since[v];
    assert r.peers[p].since[v] == k;
    forall x: Path | x.vni == v
      ensures View(r, p, x) == View(n, p, x)
      ensures OtherSource(r, p, x) == OtherSource(n, p, x)
    {
      SnapshotView(n1, p, snapshot, k, x);
      assert !Announced(p, snapshot, x);
    }
    SnapshotView(n1, p, snapshot, k, Path(v, Destination(0, Prefix(Addr([], ""), 0)), NextHop(Addr([], ""), 0, 0, 0, 0)));
  }

  lemma {:induction false} NewSubscriptionServed(n: Node, n1: Node, r: Node, p: PeerId, vni: VNI, snapshot: seq<Entry>, missed: Missed)
    requires forall x: Path :: x.vni == vni ==> (p, x) !in missed
    requires p in n.peers && n.peers[p].state.Established?
    requires n1.peers.Keys == n.peers.Keys && n1.table == n.table && n1.lastWithdrawn == n.lastWithdrawn
    requires n1.peers[p] == n.peers[p].(subscribedVNIs := n1.peers[p].subscribedVNIs, since := n.peers[p].since[vni := |n.peers[p].sent|])
    requires r == SendSnapshot(n1, p, snapshot) && OnlySends(n1, r)
    requires forall e :: e in snapshot ==> e in n.table && e.path.vni == vni && e.path.dest.ipVersion in {IPV4, IPV6}
    requires forall e :: e in n.table && e.path.vni == vni ==> e in snapshot
    ensures Served(r, vni, p, missed)
  {
    var k := |n.peers[p].sent|;
    forall x: Path | x.vni == vni
      ensures OtherSource(r, p, x) ==> View(r, p, x)
      ensures View(r, p, x) && !HasSource(r.table, x) ==> x in r.lastWithdrawn && r.lastWithdrawn[x] == p
    {
      SnapshotView(n1, p, snapshot, k, x);
      assert n1.peers[p].sent[k..] == [];
      assert View(r, p, x) == Announced(p, snapshot, x);
      if OtherSource(r, p, x) {
        var q :| q != p && Entry(x, Remote(q)) in n.table;
        assert Entry(x, Remote(q)) in snapshot && !Skipped(p, Entry(x, Remote(q)));
      }
      if Announced(p, snapshot, x) {
        var e :| e in snapshot && !Skipped(p, e) && e.path == x;
        assert Entry(x, e.source) in n.table;
      }
    }
    SnapshotView(n1, p, snapshot, k, Path(vni, Destination(0, Prefix(Addr([], ""), 0)), NextHop(Addr([], ""), 0, 0, 0, 0)));
  }

  // Every run of a pure server

  /** Not an operation of the node itself. */
  predicate FromPeer(e: Event) {
    !(e.EvLocalSubscribe? || e.EvLocalUnsubscribe? || e.EvAnnounce? || e.EvWithdraw? || e.EvProbe?)
  }

  ghost predicate ServerInv(n: Node, missed: Missed) {
    && Owned(n) && PureServer(n) && Told(n, {}, missed)
    && forall m :: m in missed ==> (m.1.vni, m.0) in n.subs
  }

  /**
   * What has been missed after an event: a subscriber that becomes ESTABLISHED
   * has missed the routes others have by then; it hears of one when somebody
   * announces it anew; and with the subscription all is forgotten.
   */
  ghost function MissedAfter(n: Node, e: Event, missed: Missed): Missed
    requires Enabled(n, e)
  {
    var now :=
      if e.EvSetState? && e.state.Established? && !n.peers[e.p].state.Established? then missed + Overlooked(n, e.p)
      else if e.EvUpdate? && e.action == ADD && Distributes(n, e.p, ADD, e.path) then Heard(missed, Hearers(n, e.p, e.path), e.path)
      else missed;
    set m | m in now && (m.1.vni, m.0) in Step(n, e).subs
  }

  ghost function MissedIn(es: seq<Event>): Missed
    decreases |es|
  {
    if es == [] then {}
    else
      var mid := After(InitNode, es[..|es| - 1]);
      var e := es[|es| - 1];
      if Enabled(mid, e) then MissedAfter(mid, e, MissedIn(es[..|es| - 1])) else MissedIn(es[..|es| - 1])
  }

  lemma {:induction false} ToldOfTheRest(n: Node, missed: Missed)
    requires Told(n, {}, missed)
    ensures Told(n, {}, set m | m in missed && (m.1.vni, m.0) in n.subs)
  {
    var now := set m | m in missed && (m.1.vni, m.0) in n.subs;
    forall v, s | (v, s) in n.subs ensures Served(n, v, s, now) {
      SameView(n, n, v, s, missed, now);
    }
  }

  lemma {:induction false} NothingToUnsubscribe(n: Node, vnis: seq<VNI>)
    requires PureServer(n)
    ensures UnsubscribeAll(n, vnis) == n
  {
    if vnis != [] {
      NothingToUnsubscribe(n, vnis[..|vnis| - 1]);
    }
  }

  ghost predicate SameConfig(n: Node, r: Node) {
    r.mySubs == n.mySubs && r.announcedHops == n.announcedHops && r.announced == n.announced && r.members == n.members
  }

  lemma {:induction false} RemoveSubscriptionsConfig(n: Node, p: PeerId, purges: PurgeOrder)
    requires p in n.peers
    ensures SameConfig(n, RemoveSubscriptions(n, p, purges))
  {
    if purges != [] {
      var before, last := purges[..|purges| - 1], purges[|purges| - 1];
      RemoveSubscriptionsConfig(n, p, before);
      PurgeEffect(RemoveSubscriptions(n, p, before), p, last.1);
    }
  }

  lemma {:induction false} SetStateConfig(n: Node, p: PeerId, state: ConnState, vnis: seq<VNI>, paths: seq<Path>, purges: PurgeOrder)
    requires p in n.peers
    ensures SameConfig(n, SetState(n, p, state, vnis, paths, purges))
  {
    var n1 := n.(peers := n.peers[p := n.peers[p].(state := state)]);
    SubscriptionsOnlySend(n1, p, vnis);
    AnnouncementsOnlySend(SendSubscriptions(n1, p, vnis), p, paths);
    RemoveSubscriptionsConfig(n1, p, purges);
  }

  lemma {:induction false} PeerEventKeepsConfig(n: Node, e: Event)
    requires PureServer(n) && Enabled(n, e) && FromPeer(e)
    ensures PureServer(Step(n, e))
  {
    match e
    case EvHello(p, interval, isServer, purges) =>
      SetStateConfig(NoteHello(n, p, interval, isServer), p, HelloReceived, [], [], purges);
    case EvSetState(p, state, vnis, paths, purges) =>
      SetStateConfig(n, p, state, vnis, paths, purges);
    case EvSubscribe(p, vni, snapshot) =>
      SnapshotOnlySends(Joined(n, p, vni), p, snapshot);
    case EvUnsubscribe(p, vni, paths) =>
      PurgeEffect(n, p, paths);
    case EvCleanup(p, vnis, paths) =>
      NothingToUnsubscribe(n, vnis);
      PurgeEffect(n, p, paths[..PresentPrefix(n.peers[p].received, p, paths)]);
    case _ =>
  }

  lemma {:induction false} HelloKeepsTold(n: Node, e: Event, missed: Missed)
    requires ServerInv(n, missed) && Enabled(n, e) && e.EvHello?
    ensures Told(Step(n, e), {}, missed)
  {
    var n1 := NoteHello(n, e.p, e.interval, e.isServer);
    forall v, s | (v, s) in n1.subs && (s !in {e.p} || !n.peers[s].state.Established?) ensures Served(n1, v, s, missed) {
      SameView(n, n1, v, s, missed, missed);
    }
    LossKeepsTold(n1, e.p, HelloReceived, [], [], e.purges, missed);
  }

  lemma {:induction false} SetStateKeepsTold(n: Node, e: Event, missed: Missed)
    requires ServerInv(n, missed) && Enabled(n, e) && e.EvSetState?
    ensures Told(Step(n, e), {},
      if e.state.Established? && !n.peers[e.p].state.Established? then missed + Overlooked(n, e.p) else missed)
  {
    if e.state.Established? {
      EstablishKeepsTold(n, e.p, e.vnis, e.paths, e.purges, missed);
    } else {
      LossKeepsTold(n, e.p, e.state, e.vnis, e.paths, e.purges, missed);
    }
  }

  lemma {:induction false} UpdateKeepsTold(n: Node, p: PeerId, action: byte, path: Path, missed: Missed)
    requires ServerInv(n, missed) && p in n.peers && path.dest.ipVersion in {IPV4, IPV6}
    ensures Told(RxUpdate(n, p, action, path), {},
      if action == ADD && Distributes(n, p, ADD, path) then Heard(missed, Hearers(n, p, path), path) else missed)
  {
    var e := Entry(path, Remote(p));
    if action == ADD && e !in n.peers[p].received {
      var n1 := SetReceived(n, p, n.peers[p].received + {e});
      forall v, s | (v, s) in n1.subs ensures Served(n1, v, s, missed) {
        SameView(n, n1, v, s, missed, missed);
      }
      assert Hearers(n1, p, path) == Hearers(n, p, path);
      assert AnnouncedAt(n1, path.vni, path.dest) == AnnouncedAt(n, path.vni, path.dest);
      if Distributes(n, p, ADD, path) {
        assert AddReceived(n1, p, path).table != n1.table;
        AddKeepsTold(n1, p, path, {}, missed);
      }
    } else if action == REMOVE && e in n.peers[p].received {
      DropKeepsTold(n, p, path, {}, missed);
    }
  }

  lemma {:induction false} ControlKeepsTold(n: Node, p: PeerId, m: Message, missed: Missed)
    requires Told(n, {}, missed) && p in n.peers && !m.Update?
    ensures Told(Push(n, p, m), {}, missed)
  {
    var r := Push(n, p, m);
    forall v, s | (v, s) in r.subs ensures Served(r, v, s, missed) {
      if s != p {
        SameView(n, r, v, s, missed, missed);
      } else {
        forall x: Path | x.vni == v ensures View(r, s, x) == View(n, s, x) && OtherSource(r, s, x) == OtherSource(n, s, x) {
          ViewAfterSend(n, r, s, m, x);
        }
      }
    }
  }

  /** Everything but becoming ESTABLISHED and a new ADD leaves what was missed as it was. */
  lemma {:induction false} QuietStep(n: Node, e: Event, missed: Missed)
    requires ServerInv(n, missed) && Enabled(n, e) && FromPeer(e) && !e.EvSetState? && !e.EvUpdate?
    ensures Told(Step(n, e), {}, missed)
  {
    var r := Step(n, e);
    match e
    case EvHello(_, _, _, _) => HelloKeepsTold(n, e, missed);
    case EvSubscribe(p, vni, snapshot) => SubscribeKeepsTold(n, p, vni, snapshot, missed);
    case EvSubscribeEarly(p, vni) => EarlyKeepsTold(n, p, vni, missed);
    case EvUnsubscribe(p, vni, paths) =>
      RemoveSubscriberKeepsTold(n, p, vni, paths, {}, missed);
      forall v, s | (v, s) in r.subs ensures Served(r, v, s, missed) {
        SameView(RemoveSubscriber(n, p, vni, paths), r, v, s, missed, missed);
      }
    case EvCleanup(p, vnis, paths) =>
      NothingToUnsubscribe(n, vnis);
      PurgeKeepsTold(n, p, paths[..PresentPrefix(n.peers[p].received, p, paths)], {}, missed);
    case EvSendControl(p, m) => ControlKeepsTold(n, p, m, missed);
    case EvConnect(_, _, _) => MembershipKeepsTold(n, r, missed);
    case EvForget(_) => MembershipKeepsTold(n, r, missed);
    case _ =>
  }

  lemma {:induction false} ServerStep(n: Node, e: Event, missed: Missed)
    requires ServerInv(n, missed) && Enabled(n, e) && FromPeer(e)
    ensures ServerInv(Step(n, e), MissedAfter(n, e, missed))
  {
    hide Told;
    OwnedStep(n, e);
    PeerEventKeepsConfig(n, e);
    var r := Step(n, e);
    if e.EvSetState? {
      SetStateKeepsTold(n, e, missed);
      ToldOfTheRest(r, if e.state.Established? && !n.peers[e.p].state.Established? then missed + Overlooked(n, e.p) else missed);
    } else if e.EvUpdate? {
      UpdateKeepsTold(n, e.p, e.action, e.path, missed);
      ToldOfTheRest(r, if e.action == ADD && Distributes(n, e.p, ADD, e.path) then Heard(missed, Hearers(n, e.p, e.path), e.path) else missed);
    } else {
      QuietStep(n, e, missed);
      ToldOfTheRest(r, missed);
    }
  }

  lemma {:induction false} MembershipKeepsTold(n: Node, r: Node, missed: Missed)
    requires Told(n, {}, missed)
    requires r == n.(members := r.members, peers := r.peers)
    requires forall q :: q in n.peers ==> q in r.peers && r.peers[q] == n.peers[q]
    ensures Told(r, {}, missed)
  {
    forall v, s | (v, s) in r.subs ensures Served(r, v, s, missed) {
      SameView(n, r, v, s, missed, missed);
    }
  }

  /** The main result about distribution: the invariant holds in every run of peer events. */
  lemma {:induction false} ServerInvInEveryRun(es: seq<Event>)
    requires forall e :: e in es ==> FromPeer(e)
    ensures ServerInv(After(InitNode, es), MissedIn(es))
  {
    hide ServerInv;
    if es == [] {
      EmptyServer();
    } else {
      var before := es[..|es| - 1];
      ServerInvInEveryRun(before);
      var mid := After(InitNode, before);
      if Enabled(mid, es[|es| - 1]) {
        ServerStep(mid, es[|es| - 1], MissedIn(before));
      }
    }
  }

  lemma EmptyServer()
    ensures ServerInv(InitNode, {})
  {
  }

  /** Every subscriber is ESTABLISHED. */
  ghost predicate NobodyWaits(n: Node) {
    forall v, s :: (v, s) in n.subs ==> s in n.peers && n.peers[s].state.Established?
  }

  lemma NobodyWaitsAtFirst()
    ensures NobodyWaits(InitNode)
  {
  }

  lemma {:induction false} ConformingSetState(n: Node, p: PeerId, state: ConnState, vnis: seq<VNI>, paths: seq<Path>, purges: PurgeOrder)
    requires Owned(n) && PureServer(n) && p in n.peers && CanSetState(n, p, state, vnis, paths, purges)
    requires forall v, s :: (v, s) in n.subs ==> s in n.peers && (n.peers[s].state.Established? || s == p)
    requires state == n.peers[p].state ==> NobodyWaits(n)
    ensures NobodyWaits(SetState(n, p, state, vnis, paths, purges))
  {
    if state.Established? {
      EstablishedQuietly(n, p, vnis, paths, purges);
    } else if state != n.peers[p].state {
      ConnectionLost(n, p, state, vnis, paths, purges);
      RemoveSubscriptionsStates(n.(peers := n.peers[p := n.peers[p].(state := state)]), p, purges);
    }
  }

  lemma {:induction false} RemoveSubscriptionsStates(n: Node, p: PeerId, purges: PurgeOrder)
    requires p in n.peers
    ensures forall q :: q in n.peers ==> RemoveSubscriptions(n, p, purges).peers[q].state == n.peers[q].state
  {
    if purges != [] {
      var before, last := purges[..|purges| - 1], purges[|purges| - 1];
      RemoveSubscriptionsStates(n, p, before);
      PurgeEffect(RemoveSubscriptions(n, p, before), p, last.1);
    }
  }

  lemma {:induction false} ConformingUpdate(n: Node, p: PeerId, action: byte, path: Path)
    requires p in n.peers && NobodyWaits(n)
    ensures NobodyWaits(RxUpdate(n, p, action, path))
  {
    hide AddReceived;
    hide DropRoute;
    if action == REMOVE {
      DropRouteEffect(n, p, path);
    } else {
      AddReceivedEffect(SetReceived(n, p, n.peers[p].received + {Entry(path, Remote(p))}), p, path);
    }
  }

  lemma {:induction false} ConformingMissesNothing(n: Node, e: Event)
    requires NobodyWaits(n) && Enabled(n, e)
    ensures MissedAfter(n, e, {}) == {}
  {
    hide Step;
    hide CanSetState;
    hide Distributes;
    if e.EvSetState? && !n.peers[e.p].state.Established? {
      assert Overlooked(n, e.p) == {};
    }
  }

  lemma {:induction false} ConformingCleanup(n: Node, p: PeerId, vnis: seq<VNI>, paths: seq<Path>)
    requires PureServer(n) && p in n.peers && NobodyWaits(n)
    ensures NobodyWaits(Cleanup(n, p, vnis, paths))
  {
    hide Purge;
    NothingToUnsubscribe(n, vnis);
    PurgeEffect(n, p, paths[..PresentPrefix(n.peers[p].received, p, paths)]);
  }

  lemma {:induction false} ConformingStep(n: Node, e: Event)
    requires Owned(n) && PureServer(n) && NobodyWaits(n) && Enabled(n, e) && FromPeer(e) && !e.EvSubscribeEarly?
    ensures NobodyWaits(Step(n, e))
  {
    hide SetState;
    hide RxUpdate;
    hide SendSnapshot;
    hide Purge;
    hide Cleanup;
    hide CanSetState;
    hide Distributes;
    match e
    case EvHello(p, interval, isServer, purges) =>
      var n1 := NoteHello(n, p, interval, isServer);
      assert Owned(n1);
      ConformingSetState(n1, p, HelloReceived, [], [], purges);
    case EvSetState(p, state, vnis, paths, purges) => ConformingSetState(n, p, state, vnis, paths, purges);
    case EvUpdate(p, action, path) => ConformingUpdate(n, p, action, path);
    case EvSubscribe(p, vni, snapshot) => SnapshotOnlySends(Joined(n, p, vni), p, snapshot);
    case EvUnsubscribe(p, vni, paths) => PurgeEffect(n, p, paths);
    case EvCleanup(p, vnis, paths) => ConformingCleanup(n, p, vnis, paths);
    case _ =>
  }

  /** A run without a SUBSCRIBE ahead of ESTABLISHED misses nothing, and nobody waits. */
  lemma {:induction false} ConformingRunsMissNothing(es: seq<Event>)
    requires forall e :: e in es ==> FromPeer(e) && !e.EvSubscribeEarly?
    ensures MissedIn(es) == {}
    ensures NobodyWaits(After(InitNode, es))
  {
    hide NobodyWaits;
    if es == [] {
      NobodyWaitsAtFirst();
    }
    if es != [] {
      var before, e := es[..|es| - 1], es[|es| - 1];
      ConformingRunsMissNothing(before);
      ServerInvInEveryRun(before);
      var mid := After(InitNode, before);
      if Enabled(mid, e) {
        ConformingStep(mid, e);
        ConformingMissesNothing(mid, e);
      }
    }
  }

  // Routes the subscriber never sourced

  ghost predicate NeverAdds(es: seq<Event>, s: PeerId, path: Path) {
    forall e :: e in es ==> !(e.EvUpdate? && e.p == s && e.action == ADD && e.path == path)
  }

  /** `s` neither sources `path` nor was the last to withdraw it. */
  ghost predicate Foreign(n: Node, s: PeerId, path: Path) {
    && Entry(path, Remote(s)) !in n.table
    && (s in n.peers ==> Entry(path, Remote(s)) !in n.peers[s].received)
    && (path in n.lastWithdrawn ==> n.lastWithdrawn[path] != s)
  }

  lemma {:induction false} PurgeKeepsForeign(n: Node, p: PeerId, order: seq<Path>, s: PeerId, path: Path)
    requires p in n.peers && Foreign(n, s, path)
    ensures Foreign(Purge(n, p, order), s, path)
  {
    if order != [] {
      PurgeKeepsForeign(n, p, order[..|order| - 1], s, path);
    }
  }

  lemma {:induction false} RemoveSubscriptionsKeepsForeign(n: Node, p: PeerId, purges: PurgeOrder, s: PeerId, path: Path)
    requires p in n.peers && Foreign(n, s, path)
    ensures Foreign(RemoveSubscriptions(n, p, purges), s, path)
  {
    if purges != [] {
      var before, last := purges[..|purges| - 1], purges[|purges| - 1];
      RemoveSubscriptionsKeepsForeign(n, p, before, s, path);
      PurgeKeepsForeign(RemoveSubscriptions(n, p, before), p, last.1, s, path);
    }
  }

  lemma {:induction false} SetStateKeepsForeign(
      n: Node, p: PeerId, state: ConnState, vnis: seq<VNI>, paths: seq<Path>, purges: PurgeOrder, s: PeerId, path: Path)
    requires p in n.peers && Foreign(n, s, path)
    ensures Foreign(SetState(n, p, state, vnis, paths, purges), s, path)
  {
    var n1 := n.(peers := n.peers[p := n.peers[p].(state := state)]);
    SubscriptionsOnlySend(n1, p, vnis);
    AnnouncementsOnlySend(SendSubscriptions(n1, p, vnis), p, paths);
    RemoveSubscriptionsKeepsForeign(n1, p, purges, s, path);
  }

  lemma {:induction false} UpdateKeepsForeign(n: Node, p: PeerId, action: byte, path: Path, s: PeerId, x: Path)
    requires p in n.peers && Foreign(n, s, x) && !(p == s && action == ADD && path == x)
    ensures Foreign(RxUpdate(n, p, action, path), s, x)
  {
    hide RemoveReceived;
    hide AddReceived;
    var e := Entry(path, Remote(p));
    if action == REMOVE {
      RemoveReceivedEffect(SetReceived(n, p, n.peers[p].received - {e}), p, path);
    } else {
      AddReceivedEffect(SetReceived(n, p, n.peers[p].received + {e}), p, path);
    }
  }

  lemma {:induction false} CleanupKeepsForeign(n: Node, p: PeerId, vnis: seq<VNI>, paths: seq<Path>, s: PeerId, path: Path)
    requires PureServer(n) && p in n.peers && Foreign(n, s, path)
    ensures Foreign(Cleanup(n, p, vnis, paths), s, path)
  {
    hide Purge;
    NothingToUnsubscribe(n, vnis);
    PurgeKeepsForeign(n, p, paths[..PresentPrefix(n.peers[p].received, p, paths)], s, path);
  }

  lemma {:induction false} ForeignStep(n: Node, e: Event, s: PeerId, path: Path)
    requires PureServer(n) && Enabled(n, e) && FromPeer(e) && Foreign(n, s, path)
    requires !(e.EvUpdate? && e.p == s && e.action == ADD && e.path == path)
    ensures Foreign(Step(n, e), s, path)
  {
    hide SetState;
    hide RxUpdate;
    hide SendSnapshot;
    hide Purge;
    hide Cleanup;
    hide CanSetState;
    hide Distributes;
    match e
    case EvHello(p, interval, isServer, purges) =>
      SetStateKeepsForeign(NoteHello(n, p, interval, isServer), p, HelloReceived, [], [], purges, s, path);
    case EvSetState(p, state, vnis, paths, purges) =>
      SetStateKeepsForeign(n, p, state, vnis, paths, purges, s, path);
    case EvUpdate(p, action, x) => UpdateKeepsForeign(n, p, action, x, s, path);
    case EvSubscribe(p, vni, snapshot) => SnapshotOnlySends(Joined(n, p, vni), p, snapshot);
    case EvUnsubscribe(p, vni, paths) => PurgeKeepsForeign(n, p, paths, s, path);
    case EvCleanup(p, vnis, paths) => CleanupKeepsForeign(n, p, vnis, paths, s, path);
    case _ =>
  }

  lemma {:induction false} ForeignInEveryRun(es: seq<Event>, s: PeerId, path: Path)
    requires forall e :: e in es ==> FromPeer(e)
    requires NeverAdds(es, s, path)
    ensures Foreign(After(InitNode, es), s, path)
  {
    if es != [] {
      var before := es[..|es| - 1];
      ForeignInEveryRun(before, s, path);
      ServerInvInEveryRun(before);
      var mid := After(InitNode, before);
      if Enabled(mid, es[|es| - 1]) {
        ForeignStep(mid, es[|es| - 1], s, path);
      }
    }
  }

  /**
   * Spelled out for one subscriber, in every run of peer events. While it is
   * not ESTABLISHED it has been told nothing. Once it is: of the routes
   * somebody else sources it has been told exactly those it has not missed; a
   * route it was told that nobody sources any more it withdrew itself; and for
   * routes it never announced the replay of what it was sent is exactly the
   * server's table but for what it missed.
   */
  lemma {:induction false} SubscriberSeesTheTable(es: seq<Event>, v: VNI, s: PeerId, path: Path)
    requires forall e :: e in es ==> FromPeer(e)
    requires (v, s) in After(InitNode, es).subs && path.vni == v
    ensures var n := After(InitNode, es);
      && s in n.peers
      && (!n.peers[s].state.Established? ==> !View(n, s, path))
      && (n.peers[s].state.Established? && !n.peers[s].isServer ==>
            && (OtherSource(n, s, path) ==> (View(n, s, path) <==> (s, path) !in MissedIn(es)))
            && (View(n, s, path) && !HasSource(n.table, path) ==>
                  path in n.lastWithdrawn && n.lastWithdrawn[path] == s)
            && (NeverAdds(es, s, path) ==>
                  (View(n, s, path) <==> HasSource(n.table, path) && (s, path) !in MissedIn(es))))
  {
    var n := After(InitNode, es);
    ServerInvInEveryRun(es);
    assert Served(n, v, s, MissedIn(es));
    if NeverAdds(es, s, path) {
      ForeignInEveryRun(es, s, path);
      if HasSource(n.table, path) {
        var src :| Entry(path, src) in n.table;
        assert Owned(n) && src.Remote? && src.id != s;
        assert OtherSource(n, s, path);
      }
    }
  }

  /**
   * The exception is real: nobody tells a subscriber that it has withdrawn the
   * last source itself. Its REMOVE leaves a stale route in its view if and only
   * if it had been told the route and nobody else sources it.
   */
  lemma {:induction false} SelfWithdrawalGoesStaleIff(n: Node, s: PeerId, path: Path, missed: Missed)
    requires ServerInv(n, missed) && Enabled(n, EvUpdate(s, REMOVE, path))
    requires (path.vni, s) in n.subs && Entry(path, Remote(s)) in n.table
    ensures var r := Step(n, EvUpdate(s, REMOVE, path));
      && s in r.peers
      && (View(r, s, path) && !HasSource(r.table, path) <==> View(n, s, path) && !OtherSource(n, s, path))
  {
    var r := Step(n, EvUpdate(s, REMOVE, path));
    assert Entry(path, Remote(s)) in n.peers[s].received;
    assert r.peers[s] == n.peers[s].(received := r.peers[s].received);
    assert HasSource(r.table, path) <==> OtherSource(n, s, path) by {
      if HasSource(r.table, path) {
        var x :| Entry(path, x) in r.table;
        assert Entry(path, x) in n.table && x.Remote? && x.id != s;
      }
      if OtherSource(n, s, path) {
        var q :| q != s && Entry(path, Remote(q)) in n.table;
        assert Entry(path, Remote(q)) in r.table;
      }
    }
  }
}
