/**
 * What a peer is sent when it subscribes and when it becomes ESTABLISHED, and
 * whom a local announcement reaches.
 */
module Sending {
  import opened Types
  import opened Engine
  import opened Ownership

  /** What `r` has sent to `p` beyond `n`. */
  ghost function NewMessages(n: Node, r: Node, p: PeerId): seq<Message>
    requires p in n.peers && p in r.peers && |n.peers[p].sent| <= |r.peers[p].sent|
  {
    r.peers[p].sent[|n.peers[p].sent|..]
  }

  // The snapshot for a new subscriber

  function AddsFor(p: PeerId, order: seq<Entry>): seq<Message> {
    if order == [] then []
    else
      var e := order[|order| - 1];
      AddsFor(p, order[..|order| - 1]) + if Skipped(p, e) then [] else [Update(ADD, e.path)]
  }

  lemma {:induction false} SnapshotAppends(n: Node, p: PeerId, order: seq<Entry>)
    requires p in n.peers && n.peers[p].state.Established?
    requires forall e :: e in order ==> e.path.dest.ipVersion in {IPV4, IPV6}
    ensures SendSnapshot(n, p, order).peers[p].sent == n.peers[p].sent + AddsFor(p, order)
  {
    if order != [] {
      var before, e := order[..|order| - 1], order[|order| - 1];
      assert e in order;
      SnapshotAppends(n, p, before);
      var m := SendSnapshot(n, p, before);
      assert m.peers[p].state.Established? by {
        SnapshotOnlySends(n, p, before);
      }
      hide Skipped;
      if !Skipped(p, e) {
        assert SendSnapshot(n, p, order) == Push(m, p, Update(ADD, e.path));
      }
    }
  }

  /** The tuples of `order` that are not skipped. */
  ghost function Unskipped(p: PeerId, order: seq<Entry>): set<Entry> {
    set e | e in order && !Skipped(p, e)
  }

  lemma {:induction false} UnskippedAppend(p: PeerId, before: seq<Entry>, e: Entry)
    ensures Unskipped(p, before + [e]) == Unskipped(p, before) + if Skipped(p, e) then {} else {e}
  {
    hide Skipped;
  }

  lemma {:induction false} AddsForAre(p: PeerId, order: seq<Entry>, m: Message)
    ensures m in AddsFor(p, order) <==> exists e :: e in Unskipped(p, order) && m == Update(ADD, e.path)
  {
    hide Skipped;
    if order != [] {
      var before, e := order[..|order| - 1], order[|order| - 1];
      AddsForAre(p, before, m);
      assert order == before + [e];
      UnskippedAppend(p, before, e);
    }
  }

  lemma {:induction false} DistinctFront(order: seq<Entry>)
    requires Distinct(order) && order != []
    ensures Distinct(order[..|order| - 1]) && order[|order| - 1] !in order[..|order| - 1]
  {
  }

  lemma {:induction false} AddsForCount(p: PeerId, order: seq<Entry>)
    requires Distinct(order)
    ensures |AddsFor(p, order)| == |Unskipped(p, order)|
  {
    hide Skipped;
    if order == [] {
      assert Unskipped(p, order) == {};
    } else {
      var before, e := order[..|order| - 1], order[|order| - 1];
      DistinctFront(order);
      AddsForCount(p, before);
      UnskippedAppend(p, before, e);
      assert order == before + [e];
      assert e !in Unskipped(p, before);
      hide Unskipped;
      hide Distinct;
    }
  }

  /** The tuples a new subscriber is told of: its own NAT routes are not echoed. */
  ghost function Snapshot(n: Node, p: PeerId, vni: VNI): set<Entry> {
    set e | e in n.table && e.path.vni == vni && !(e.source == Remote(p) && e.path.hop.kind == NAT)
  }

  /**
   * A new subscriber is sent one ADD for each tuple of the VNI but its own NAT
   * routes, and nothing else, whatever the order of the nested maps.
   */
  lemma {:induction false} SubscriberIsSentTheTable(n: Node, p: PeerId, vni: VNI, snapshot: seq<Entry>)
    requires Enabled(n, EvSubscribe(p, vni, snapshot)) && (vni, p) !in n.subs
    requires forall e :: e in n.table ==> e.path.dest.ipVersion in {IPV4, IPV6}
    ensures var r := Step(n, EvSubscribe(p, vni, snapshot));
      && p in r.peers && n.peers[p].sent <= r.peers[p].sent
      && (forall m :: m in NewMessages(n, r, p) <==> exists e :: e in Snapshot(n, p, vni) && m == Update(ADD, e.path))
      && |NewMessages(n, r, p)| == |Snapshot(n, p, vni)|
  {
    var n1 := Joined(n, p, vni);
    SnapshotAppends(n1, p, snapshot);
    forall m ensures m in AddsFor(p, snapshot) <==> exists e :: e in Unskipped(p, snapshot) && m == Update(ADD, e.path) {
      AddsForAre(p, snapshot, m);
    }
    AddsForCount(p, snapshot);
    assert Snapshot(n, p, vni) == Unskipped(p, snapshot);
    var r := Step(n, EvSubscribe(p, vni, snapshot));
    assert NewMessages(n, r, p) == AddsFor(p, snapshot);
  }

  // The greeting of an ESTABLISHED peer

  function Subscribes(vnis: seq<VNI>): seq<Message> {
    if vnis == [] then [] else Subscribes(vnis[..|vnis| - 1]) + [Subscribe(vnis[|vnis| - 1])]
  }

  function Adds(paths: seq<Path>): seq<Message> {
    if paths == [] then [] else Adds(paths[..|paths| - 1]) + [Update(ADD, paths[|paths| - 1])]
  }

  lemma {:induction false} SubscribesAre(vnis: seq<VNI>)
    ensures |Subscribes(vnis)| == |vnis| && forall i :: 0 <= i < |vnis| ==> Subscribes(vnis)[i] == Subscribe(vnis[i])
  {
    if vnis != [] {
      SubscribesAre(vnis[..|vnis| - 1]);
    }
  }

  lemma {:induction false} AddsAre(paths: seq<Path>)
    ensures |Adds(paths)| == |paths| && forall i :: 0 <= i < |paths| ==> Adds(paths)[i] == Update(ADD, paths[i])
  {
    if paths != [] {
      AddsAre(paths[..|paths| - 1]);
    }
  }

  lemma {:induction false} SubscriptionsAppend(n: Node, p: PeerId, vnis: seq<VNI>)
    requires p in n.peers && n.peers[p].state.Established?
    ensures SendSubscriptions(n, p, vnis).peers[p].sent ==
      n.peers[p].sent + if n.peers[p].direction.Outgoing? then Subscribes(vnis) else []
  {
    if vnis != [] {
      SubscriptionsAppend(n, p, vnis[..|vnis| - 1]);
      SubscriptionsOnlySend(n, p, vnis[..|vnis| - 1]);
    }
  }

  lemma {:induction false} AnnouncementsAppend(n: Node, p: PeerId, paths: seq<Path>)
    requires p in n.peers && n.peers[p].state.Established?
    requires forall x :: x in paths ==> x.dest.ipVersion in {IPV4, IPV6}
    ensures SendAnnouncements(n, p, paths).peers[p].sent == n.peers[p].sent + Adds(paths)
  {
    if paths != [] {
      assert paths[|paths| - 1] in paths;
      AnnouncementsAppend(n, p, paths[..|paths| - 1]);
      AnnouncementsOnlySend(n, p, paths[..|paths| - 1]);
    }
  }

  /**
   * A peer that becomes ESTABLISHED is sent one SUBSCRIBE for each subscription
   * of the node (an outgoing peer only) and then one ADD for each hop key of
   * the announcements, in some order, and nothing else.
   */
  lemma {:induction false} EstablishedPeerIsGreeted(n: Node, p: PeerId, vnis: seq<VNI>, paths: seq<Path>, purges: PurgeOrder)
    requires Enabled(n, EvSetState(p, Established, vnis, paths, purges)) && !n.peers[p].state.Established?
    requires forall x :: x in n.announcedHops ==> x.dest.ipVersion in {IPV4, IPV6}
    ensures var r := Step(n, EvSetState(p, Established, vnis, paths, purges));
      && p in r.peers && n.peers[p].sent <= r.peers[p].sent
      && NewMessages(n, r, p) == (if n.peers[p].direction.Outgoing? then Subscribes(vnis) else []) + Adds(paths)
      && Enumerates(vnis, n.mySubs) && Enumerates(paths, n.announcedHops)
  {
    hide SendSubscriptions;
    hide SendAnnouncements;
    hide Subscribes;
    hide Adds;
    var n1 := n.(peers := n.peers[p := n.peers[p].(state := Established)]);
    assert forall x :: x in paths ==> x in n.announcedHops;
    hide Enumerates;
    SubscriptionsAppend(n1, p, vnis);
    SubscriptionsOnlySend(n1, p, vnis);
    AnnouncementsAppend(SendSubscriptions(n1, p, vnis), p, paths);
    var r := Step(n, EvSetState(p, Established, vnis, paths, purges));
    var greeting := (if n.peers[p].direction.Outgoing? then Subscribes(vnis) else []) + Adds(paths);
    assert r.peers[p].sent == n.peers[p].sent + greeting;
  }

  /** Setting the state a peer is in already does nothing; in particular, a peer is greeted once. */
  lemma {:induction false} SameStateIsSilent(n: Node, p: PeerId, vnis: seq<VNI>, paths: seq<Path>, purges: PurgeOrder)
    requires p in n.peers && Enabled(n, EvSetState(p, n.peers[p].state, vnis, paths, purges))
    ensures Step(n, EvSetState(p, n.peers[p].state, vnis, paths, purges)) == n
  {
    assert n.peers[p := n.peers[p]] == n.peers;
  }

  // Local announcements

  lemma {:induction false} ReachedIsFirstFailure(n: Node, m: Message, order: seq<PeerId>)
    requires forall p :: p in order ==> p in n.peers
    ensures forall i :: 0 <= i < Reached(n, m, order) ==> Accepts(n.peers[order[i]], m)
    ensures Reached(n, m, order) < |order| ==> !Accepts(n.peers[order[Reached(n, m, order)]], m)
  {
    if order != [] && Accepts(n.peers[order[0]], m) {
      ReachedIsFirstFailure(n, m, order[1..]);
      assert forall i :: 0 < i < |order| ==> order[i] == order[1..][i - 1];
    }
  }

  /** The peer at place `i` of the visit gets the message if and only if no peer up to that place refuses it. */
  lemma {:induction false} MemberGetsIff(n: Node, m: Message, order: seq<PeerId>, i: nat)
    requires Distinct(order) && (forall p :: p in order ==> p in n.peers) && i < |order|
    ensures var r := SendToMembers(n, m, order);
      && order[i] in r.peers
      && r.peers[order[i]].sent ==
           if forall j :: 0 <= j <= i ==> Accepts(n.peers[order[j]], m) then n.peers[order[i]].sent + [m] else n.peers[order[i]].sent
  {
    ReachedIsFirstFailure(n, m, order);
    var k := Reached(n, m, order);
    if i >= k {
      assert order[i] !in ToSet(order[..k]);
    } else {
      assert order[..k][i] in ToSet(order[..k]);
    }
  }

  lemma {:induction false} OthersGetNothing(n: Node, m: Message, order: seq<PeerId>, q: PeerId)
    requires (forall p :: p in order ==> p in n.peers) && q in n.peers && q !in order
    ensures var r := SendToMembers(n, m, order); q in r.peers && r.peers[q].sent == n.peers[q].sent
  {
    assert q !in ToSet(order[..Reached(n, m, order)]);
  }

  /** The peer is ESTABLISHED and, for a SUBSCRIBE, outgoing. */
  ghost predicate Open(n: Node, p: PeerId, toSubscribe: bool) {
    p in n.peers && n.peers[p].state == Established && (toSubscribe ==> n.peers[p].direction == Outgoing)
  }

  /** The peers visited before and at place `i` are all open. */
  ghost predicate OpenUpTo(n: Node, order: seq<PeerId>, i: nat, toSubscribe: bool)
    requires i < |order|
  {
    forall j :: 0 <= j <= i ==> Open(n, order[j], toSubscribe)
  }

  /** The visited peers get exactly `m` as far as all are open; everybody else gets nothing. */
  ghost predicate TellsMembers(n: Node, r: Node, m: Message, order: seq<PeerId>) {
    && r.peers.Keys == n.peers.Keys && Distinct(order)
    && (forall q :: q in order <==> q in n.members)
    && (forall q :: q in n.peers && q !in n.members ==> r.peers[q].sent == n.peers[q].sent)
    && (forall i :: 0 <= i < |order| ==>
          && order[i] in n.peers
          && r.peers[order[i]].sent ==
               n.peers[order[i]].sent + if OpenUpTo(n, order, i, m.Subscribe?) then [m] else [])
  }

  lemma {:induction false} MembersAreTold(n: Node, n1: Node, m: Message, order: seq<PeerId>)
    requires MembersInOrder(n, order) && n1.peers == n.peers
    requires m.Subscribe? || (m.Update? && m.action in {ADD, REMOVE} && m.path.dest.ipVersion in {IPV4, IPV6})
    ensures TellsMembers(n, SendToMembers(n1, m, order), m, order)
  {
    var r := SendToMembers(n1, m, order);
    MembersOnlySend(n1, m, order);
    forall q | q in n.peers && q !in n.members ensures r.peers[q].sent == n.peers[q].sent {
      OthersGetNothing(n1, m, order, q);
    }
    forall i | 0 <= i < |order|
      ensures order[i] in n.peers
      ensures r.peers[order[i]].sent == n.peers[order[i]].sent + if OpenUpTo(n, order, i, m.Subscribe?) then [m] else []
    {
      MemberGetsIff(n1, m, order, i);
      assert forall j :: 0 <= j <= i ==> order[j] in n.peers;
      assert n.peers[order[i]].sent + [] == n.peers[order[i]].sent;
    }
  }

  /** A new local subscription is recorded, and SUBSCRIBE for this VNI goes out as far as the peers are open. */
  lemma {:induction false} SubscriptionTellsMembers(n: Node, vni: VNI, order: seq<PeerId>)
    requires Enabled(n, EvLocalSubscribe(vni, order)) && vni !in n.mySubs
    ensures var r := Step(n, EvLocalSubscribe(vni, order));
      r.mySubs == n.mySubs + {vni} && TellsMembers(n, r, Subscribe(vni), order)
  {
    hide SendToMembers;
    var n1 := n.(mySubs := n.mySubs + {vni});
    MembersOnlySend(n1, Subscribe(vni), order);
    MembersAreTold(n, n1, Subscribe(vni), order);
  }

  lemma {:induction false} AnnouncementTellsMembers(n: Node, path: Path, order: seq<PeerId>)
    requires Enabled(n, EvAnnounce(path, order)) && path !in n.announced && path.dest.ipVersion in {IPV4, IPV6}
    ensures var r := Step(n, EvAnnounce(path, order));
      r.announced == n.announced + {path} && TellsMembers(n, r, Update(ADD, path), order)
  {
    hide SendToMembers;
    var n1 := n.(announced := n.announced + {path}, announcedHops := n.announcedHops + {path});
    MembersOnlySend(n1, Update(ADD, path), order);
    MembersAreTold(n, n1, Update(ADD, path), order);
  }

  lemma {:induction false} WithdrawalTellsMembers(n: Node, path: Path, order: seq<PeerId>)
    requires Enabled(n, EvWithdraw(path, order)) && path in n.announced && path.dest.ipVersion in {IPV4, IPV6}
    ensures var r := Step(n, EvWithdraw(path, order));
      r.announced == n.announced - {path} && TellsMembers(n, r, Update(REMOVE, path), order)
  {
    hide SendToMembers;
    var n1 := n.(announced := n.announced - {path}, announcedHops := n.announcedHops - {path});
    MembersOnlySend(n1, Update(REMOVE, path), order);
    MembersAreTold(n, n1, Update(REMOVE, path), order);
  }

  /** What cannot be encoded reaches nobody: the first send fails. */
  lemma {:induction false} UnencodableReachesNobody(n: Node, e: Event)
    requires Enabled(n, e) && (e.EvAnnounce? || e.EvWithdraw?) && e.path.dest.ipVersion !in {IPV4, IPV6}
    ensures Step(n, e).peers == n.peers
  {
    var action := if e.EvAnnounce? then ADD else REMOVE;
    assert Reached(n, Update(action, e.path), e.order) == 0;
    NobodyReached(n.(announced := n.announced + {e.path}, announcedHops := n.announcedHops + {e.path}), Update(action, e.path), e.order);
    NobodyReached(n.(announced := n.announced - {e.path}, announcedHops := n.announcedHops - {e.path}), Update(action, e.path), e.order);
  }

  lemma {:induction false} NobodyReached(n: Node, m: Message, order: seq<PeerId>)
    requires (forall p :: p in order ==> p in n.peers) && !Encodable(m)
    ensures SendToMembers(n, m, order).peers == n.peers
  {
    assert Reached(n, m, order) == 0;
    assert ToSet<PeerId>(order[..0]) == {};
    assert Deliver(n, m, {}).peers == n.peers;
  }

  /** A local unsubscription sends UNSUBSCRIBE to each current outgoing peer that is not CLOSED, and nothing else to anybody. */
  lemma {:induction false} UnsubscriptionTellsMembers(n: Node, vni: VNI)
    ensures var r := Step(n, EvLocalUnsubscribe(vni));
      && r.mySubs == n.mySubs - {vni} && r.peers.Keys == n.peers.Keys
      && forall q :: q in n.peers ==>
           r.peers[q].sent == n.peers[q].sent +
             if vni in n.mySubs && q in n.members && n.peers[q].direction == Outgoing && n.peers[q].state != Closed
             then [Unsubscribe(vni)] else []
  {
    assert vni !in n.mySubs ==> n.mySubs - {vni} == n.mySubs;
  }

  /** HELLO and KEEPALIVE are refused on a CLOSED peer only. */
  lemma {:induction false} ControlIsSent(n: Node, p: PeerId, m: Message)
    requires Enabled(n, EvSendControl(p, m))
    ensures var r := Step(n, EvSendControl(p, m));
      && p in r.peers
      && r.peers[p].sent == n.peers[p].sent + (if n.peers[p].state == Closed then [] else [m])
      && r == n.(peers := n.peers[p := n.peers[p].(sent := r.peers[p].sent)])
  {
    assert n.peers[p].sent + [] == n.peers[p].sent;
    if n.peers[p].state == Closed {
      assert n.peers[p := n.peers[p]] == n.peers;
    }
  }

  // UPDATEs of peers, spelled out

  /** Those of the VNI's subscribers an UPDATE from `p` goes to. */
  ghost predicate Hears(n: Node, vni: VNI, p: PeerId, q: PeerId)
    requires p in n.peers && q in n.peers
  {
    (vni, q) in n.subs && q != p && n.peers[q].state == Established && !(n.peers[p].isServer && n.peers[q].isServer)
  }

  ghost predicate AnnouncesDestination(n: Node, path: Path) {
    exists x :: x in n.announcedHops && x.vni == path.vni && x.dest == path.dest
  }

  /**
   * An ADD is stored when it is new to the peer and the node, and is not a
   * STANDARD route for a destination the node announces; then, and only then,
   * it is told to those who hear of it and to the client.
   */
  lemma {:induction false} AddInWords(n: Node, p: PeerId, path: Path)
    requires Enabled(n, EvUpdate(p, ADD, path))
    ensures var r := Step(n, EvUpdate(p, ADD, path));
      var x := Entry(path, Remote(p));
      var stores := x !in n.peers[p].received && x !in n.table && !(path.hop.kind == 0 && AnnouncesDestination(n, path));
      && r.peers.Keys == n.peers.Keys
      && r.peers[p].received == n.peers[p].received + {x}
      && r.table == (if stores then n.table + {x} else n.table)
      && r.calls == n.calls + (if stores then [AddRoute(path)] else [])
      && forall q :: q in n.peers ==>
           r.peers[q].sent == n.peers[q].sent + if stores && Hears(n, path.vni, p, q) then [Update(ADD, path)] else []
  {
    var x := Entry(path, Remote(p));
    assert AnnouncedAt(n, path.vni, path.dest) <==> AnnouncesDestination(n, path);
    assert n.calls + [] == n.calls && forall q :: q in n.peers ==> n.peers[q].sent + [] == n.peers[q].sent;
    if x in n.peers[p].received {
      assert n.peers[p].received + {x} == n.peers[p].received;
    } else {
      AddReceivedInWords(SetReceived(n, p, n.peers[p].received + {x}), p, path);
    }
  }

  lemma {:induction false} AddReceivedInWords(n: Node, p: PeerId, path: Path)
    requires p in n.peers && path.dest.ipVersion in {IPV4, IPV6}
    ensures var r := AddReceived(n, p, path);
      var x := Entry(path, Remote(p));
      var stores := x !in n.table && !(path.hop.kind == 0 && AnnouncedAt(n, path.vni, path.dest));
      && r.peers.Keys == n.peers.Keys
      && r.table == (if stores then n.table + {x} else n.table)
      && r.calls == n.calls + (if stores then [AddRoute(path)] else [])
      && forall q :: q in n.peers ==>
           r.peers[q] == n.peers[q].(sent := n.peers[q].sent + if stores && Hears(n, path.vni, p, q) then [Update(ADD, path)] else [])
  {
    assert n.calls + [] == n.calls && forall q :: q in n.peers ==> n.peers[q].sent + [] == n.peers[q].sent;
  }

  /**
   * A REMOVE of a route the peer has goes out of both tables; those who hear of
   * it are told if and only if no other source is left, the client in any case.
   */
  lemma {:induction false} RemoveInWords(n: Node, p: PeerId, path: Path)
    requires Enabled(n, EvUpdate(p, REMOVE, path))
    ensures var r := Step(n, EvUpdate(p, REMOVE, path));
      var x := Entry(path, Remote(p));
      var gone := x in n.peers[p].received && x in n.table;
      var last := forall s :: s != Remote(p) ==> Entry(path, s) !in n.table;
      && r.peers.Keys == n.peers.Keys
      && r.peers[p].received == n.peers[p].received - {x}
      && r.table == (if gone then n.table - {x} else n.table)
      && r.calls == n.calls + (if gone then [RemoveRoute(path)] else [])
      && forall q :: q in n.peers ==>
           r.peers[q].sent == n.peers[q].sent + if gone && last && Hears(n, path.vni, p, q) then [Update(REMOVE, path)] else []
  {
    var x := Entry(path, Remote(p));
    assert n.calls + [] == n.calls && forall q :: q in n.peers ==> n.peers[q].sent + [] == n.peers[q].sent;
    if x !in n.peers[p].received {
      assert n.peers[p].received - {x} == n.peers[p].received;
    } else {
      RemoveReceivedInWords(SetReceived(n, p, n.peers[p].received - {x}), p, path);
    }
  }

  lemma {:induction false} RemoveReceivedInWords(n: Node, p: PeerId, path: Path)
    requires p in n.peers && path.dest.ipVersion in {IPV4, IPV6}
    ensures var r := RemoveReceived(n, p, path);
      var x := Entry(path, Remote(p));
      var gone := x in n.table;
      var last := forall s :: s != Remote(p) ==> Entry(path, s) !in n.table;
      && r.peers.Keys == n.peers.Keys
      && r.table == (if gone then n.table - {x} else n.table)
      && r.calls == n.calls + (if gone then [RemoveRoute(path)] else [])
      && forall q :: q in n.peers ==>
           r.peers[q] == n.peers[q].(sent := n.peers[q].sent + if gone && last && Hears(n, path.vni, p, q) then [Update(REMOVE, path)] else [])
  {
    assert n.calls + [] == n.calls && forall q :: q in n.peers ==> n.peers[q].sent + [] == n.peers[q].sent;
    hide HasSource;
    OthersLeft(n.table, p, path);
  }

  lemma {:induction false} OthersLeft(table: set<Entry>, p: PeerId, path: Path)
    ensures HasSource(table - {Entry(path, Remote(p))}, path) <==> exists s :: s != Remote(p) && Entry(path, s) in table
  {
    if s :| s != Remote(p) && Entry(path, s) in table {
      assert Entry(path, s) in table - {Entry(path, Remote(p))};
    }
  }

  /** UNSUBSCRIBE of a subscribed peer: the subscription ends, and its routes of the VNI leave both tables. */
  lemma {:induction false} UnsubscribeInWords(n: Node, p: PeerId, vni: VNI, paths: seq<Path>)
    requires Owned(n) && Enabled(n, EvUnsubscribe(p, vni, paths))
    ensures var r := Step(n, EvUnsubscribe(p, vni, paths));
      var subscribed := (vni, p) in n.subs;
      && p in r.peers && r.subs == n.subs - {(vni, p)} && r.peers[p].subscribedVNIs == n.peers[p].subscribedVNIs - {vni}
      && (forall e :: e in r.table <==> e in n.table && !(subscribed && e.source == Remote(p) && e.path.vni == vni))
      && (forall e :: e in r.peers[p].received <==> e in n.peers[p].received && !(subscribed && e.path.vni == vni))
  {
    hide Purge;
    if (vni, p) in n.subs {
      RemoveSubscriberEffect(n, p, vni, paths);
      assert Subscriptions(p, {vni}) == {(vni, p)};
    } else {
      assert n.subs - {(vni, p)} == n.subs;
    }
  }
}
