/**
 * What the node tells its Client. The hops a client keeps after the node's
 * AddRoute and RemoveRoute calls are hops of the node's table, and all of them
 * as long as no hop has two sources at once.
 */
module Mirror {
  import opened Types
  import opened Engine
  import opened Ownership

  /** Whether a client that obeys every call holds `path` after `calls`. */
  function Kept(calls: seq<Call>, path: Path): bool {
    if calls == [] then false
    else
      var c := calls[|calls| - 1];
      if c.path == path then c.AddRoute? else Kept(calls[..|calls| - 1], path)
  }

  lemma {:induction false} KeptAppend(calls: seq<Call>, c: Call, path: Path)
    ensures Kept(calls + [c], path) == if c.path == path then c.AddRoute? else Kept(calls, path)
  {
    assert (calls + [c])[..|calls|] == calls;
  }

  /** The client holds no hop the node's table lacks. */
  ghost predicate Within(n: Node) {
    forall path :: Kept(n.calls, path) ==> HasSource(n.table, path)
  }

  /** The client holds exactly the hops of the node's table. */
  ghost predicate Mirrors(n: Node) {
    forall path :: Kept(n.calls, path) <==> HasSource(n.table, path)
  }

  ghost predicate SingleSource(n: Node) {
    forall path, a, b :: Entry(path, a) in n.table && Entry(path, b) in n.table ==> a == b
  }

  lemma {:induction false} AddReceivedMirror(n: Node, from: PeerId, path: Path)
    requires from in n.peers
    ensures Within(n) ==> Within(AddReceived(n, from, path))
    ensures Mirrors(n) ==> Mirrors(AddReceived(n, from, path))
  {
    var r := AddReceived(n, from, path);
    if r != n {
      forall x
        ensures Kept(r.calls, x) == (x == path || Kept(n.calls, x))
        ensures HasSource(r.table, x) == (x == path || HasSource(n.table, x))
      {
        KeptAppend(n.calls, AddRoute(path), x);
        assert Entry(path, Remote(from)) in r.table;
        if HasSource(n.table, x) {
          var s :| Entry(x, s) in n.table;
          assert Entry(x, s) in r.table;
        }
      }
    }
  }

  /**
   * Removing one source keeps the client inside the table. It keeps the mirror
   * exact if and only if that was the hop's last source.
   */
  lemma {:induction false} RemoveReceivedMirror(n: Node, from: PeerId, path: Path)
    requires from in n.peers && Entry(path, Remote(from)) in n.table
    ensures var r := RemoveReceived(n, from, path);
      && (Within(n) ==> Within(r))
      && (Mirrors(n) ==> (Mirrors(r) <==> !HasSource(r.table, path)))
      && (SingleSource(n) ==> SingleSource(r) && !HasSource(r.table, path))
  {
    var r := RemoveReceived(n, from, path);
    forall x
      ensures Kept(r.calls, x) == (x != path && Kept(n.calls, x))
      ensures x != path ==> HasSource(r.table, x) == HasSource(n.table, x)
    {
      KeptAppend(n.calls, RemoveRoute(path), x);
      if x != path && HasSource(n.table, x) {
        var s :| Entry(x, s) in n.table;
        assert Entry(x, s) in r.table;
      }
    }
  }

  lemma {:induction false} DropRouteMirror(n: Node, p: PeerId, path: Path)
    requires p in n.peers
    ensures var r := DropRoute(n, p, path);
      && (Within(n) ==> Within(r))
      && (Mirrors(n) && SingleSource(n) ==> Mirrors(r) && SingleSource(r))
  {
    var n1 := SetReceived(n, p, n.peers[p].received - {Entry(path, Remote(p))});
    if Entry(path, Remote(p)) in n.table {
      RemoveReceivedMirror(n1, p, path);
    }
  }

  lemma {:induction false} PurgeMirror(n: Node, p: PeerId, order: seq<Path>)
    requires p in n.peers
    ensures var r := Purge(n, p, order);
      && (Within(n) ==> Within(r))
      && (Mirrors(n) && SingleSource(n) ==> Mirrors(r) && SingleSource(r))
  {
    if order != [] {
      PurgeMirror(n, p, order[..|order| - 1]);
      DropRouteMirror(Purge(n, p, order[..|order| - 1]), p, order[|order| - 1]);
    }
  }

  lemma {:induction false} RemoveSubscriptionsMirror(n: Node, p: PeerId, purges: PurgeOrder)
    requires p in n.peers
    ensures var r := RemoveSubscriptions(n, p, purges);
      && (Within(n) ==> Within(r))
      && (Mirrors(n) && SingleSource(n) ==> Mirrors(r) && SingleSource(r))
  {
    if purges != [] {
      var before, last := purges[..|purges| - 1], purges[|purges| - 1];
      RemoveSubscriptionsMirror(n, p, before);
      PurgeMirror(RemoveSubscriptions(n, p, before), p, last.1);
    }
  }

  lemma {:induction false} QuietUnsubscribeAll(n: Node, vnis: seq<VNI>)
    requires forall v :: v in vnis ==> v !in n.mySubs
    ensures UnsubscribeAll(n, vnis) == n
  {
    if vnis != [] {
      QuietUnsubscribeAll(n, vnis[..|vnis| - 1]);
      assert vnis[|vnis| - 1] in vnis;
    }
  }

  // Runs

  /** The event does not end a subscription of the node itself, which removes routes behind the client's back. */
  ghost predicate Quiet(n: Node, e: Event) {
    && !e.EvLocalUnsubscribe?
    && (e.EvCleanup? && Enabled(n, e) ==> forall v :: v in e.vnis ==> v !in n.mySubs)
  }

  ghost predicate QuietRun(es: seq<Event>) {
    forall k :: 0 <= k < |es| ==> Quiet(After(InitNode, es[..k]), es[k])
  }

  lemma {:induction false} SetStateMirror(n: Node, p: PeerId, state: ConnState, vnis: seq<VNI>, paths: seq<Path>, purges: PurgeOrder)
    requires p in n.peers
    ensures var r := SetState(n, p, state, vnis, paths, purges);
      && (Within(n) ==> Within(r))
      && (Mirrors(n) && SingleSource(n) ==> Mirrors(r))
  {
    var n1 := n.(peers := n.peers[p := n.peers[p].(state := state)]);
    SubscriptionsOnlySend(n1, p, vnis);
    AnnouncementsOnlySend(SendSubscriptions(n1, p, vnis), p, paths);
    RemoveSubscriptionsMirror(n1, p, purges);
  }

  lemma {:induction false} StepMirror(n: Node, e: Event)
    requires Enabled(n, e) && Quiet(n, e)
    ensures Within(n) ==> Within(Step(n, e))
    ensures Mirrors(n) && SingleSource(n) ==> Mirrors(Step(n, e))
  {
    match e
    case EvHello(p, interval, isServer, purges) =>
      SetStateMirror(NoteHello(n, p, interval, isServer), p, HelloReceived, [], [], purges);
    case EvSetState(p, state, vnis, paths, purges) =>
      SetStateMirror(n, p, state, vnis, paths, purges);
    case EvUpdate(p, action, path) =>
      AddReceivedMirror(SetReceived(n, p, n.peers[p].received + {Entry(path, Remote(p))}), p, path);
      DropRouteMirror(n, p, path);
    case EvSubscribe(p, vni, snapshot) =>
      SnapshotOnlySends(Joined(n, p, vni), p, snapshot);
    case EvUnsubscribe(p, vni, paths) =>
      PurgeMirror(n, p, paths);
    case EvCleanup(p, vnis, paths) =>
      QuietUnsubscribeAll(n, vnis);
      PurgeMirror(n, p, paths[..PresentPrefix(n.peers[p].received, p, paths)]);
    case EvLocalSubscribe(vni, order) =>
      MembersOnlySend(n.(mySubs := n.mySubs + {vni}), Subscribe(vni), order);
    case EvAnnounce(path, order) =>
      MembersOnlySend(n.(announced := n.announced + {path}, announcedHops := n.announcedHops + {path}), Update(ADD, path), order);
    case EvWithdraw(path, order) =>
      MembersOnlySend(n.(announced := n.announced - {path}, announcedHops := n.announcedHops - {path}), Update(REMOVE, path), order);
    case _ =>
  }

  lemma {:induction false} ClientMirrorsTheTable(es: seq<Event>)
    requires QuietRun(es)
    ensures Within(After(InitNode, es))
    ensures (forall k :: 0 <= k < |es| ==> SingleSource(After(InitNode, es[..k]))) ==> Mirrors(After(InitNode, es))
  {
    if es != [] {
      var before, e := es[..|es| - 1], es[|es| - 1];
      forall k | 0 <= k < |before|
        ensures before[..k] == es[..k] && Quiet(After(InitNode, before[..k]), before[k])
      {
        assert before[..k] == es[..k];
      }
      ClientMirrorsTheTable(before);
      var mid := After(InitNode, before);
      if Enabled(mid, e) {
        StepMirror(mid, e);
      }
    }
  }

  /**
   * Why local unsubscriptions are left out of those runs: the client is not
   * told, and stays inside the table exactly when each hop it holds in the VNI
   * has a source that is not a current peer.
   */
  lemma {:induction false} UnsubscribeKeepsWithinIff(n: Node, vni: VNI)
    requires Within(n) && vni in n.mySubs
    ensures Within(LocalUnsubscribe(n, vni)) <==>
      forall path: Path :: path.vni == vni && Kept(n.calls, path) ==>
        exists s :: Entry(path, s) in n.table && !(s.Remote? && s.id in n.members)
  {
    var r := LocalUnsubscribe(n, vni);
    forall path: Path
      ensures path.vni == vni ==>
        (HasSource(r.table, path) <==> exists s :: Entry(path, s) in n.table && !(s.Remote? && s.id in n.members))
      ensures path.vni != vni ==> (HasSource(r.table, path) <==> HasSource(n.table, path))
    {
      if path.vni != vni && HasSource(n.table, path) {
        var s :| Entry(path, s) in n.table;
        assert Entry(path, s) in r.table;
      }
      if s :| Entry(path, s) in n.table && path.vni == vni && !(s.Remote? && s.id in n.members) {
        assert Entry(path, s) in r.table;
      }
    }
  }
}
