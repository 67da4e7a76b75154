/**
 * Facts about Engine's functions that the loops of the node's methods need:
 * what one more round does, and which event a handler amounts to.
 */
module NodeFacts {
  import opened Types
  import opened RouteTables
  import opened Engine
  import opened Lists
  import opened Ownership
  import Handshake

  function WithPeer(n: Node, p: PeerId, peer: Peer): Node {
    n.(peers := n.peers[p := peer])
  }

  /** In a table of local routes a path has at most the one source. */
  lemma {:induction false} LocalPaths(entries: set<Entry>, path: Path)
    requires forall e :: e in entries ==> e.source == Local
    ensures path in PathsOf(entries) <==> Entry(path, Local) in entries
    ensures PathsOf(entries + {Entry(path, Local)}) == PathsOf(entries) + {path}
    ensures PathsOf(entries - {Entry(path, Local)}) == PathsOf(entries) - {path}
    ensures SourcesOf(entries - {Entry(path, Local)}, path) == {}
  {
    assert forall q :: Entry(q, Local) in entries <==> q in PathsOf(entries);
    assert forall q :: Entry(q, Local) in entries - {Entry(path, Local)} <==> q in PathsOf(entries - {Entry(path, Local)});
    assert Entry(path, Local) in entries + {Entry(path, Local)};
  }

  ghost function SubsOf(subscribers: map<VNI, set<PeerId>>): set<(VNI, PeerId)> {
    set v, q | v in subscribers && q in subscribers[v] :: (v, q)
  }

  predicate Passes(n: Node, from: PeerId, q: PeerId)
    requires from in n.peers && q in n.peers
  {
    q != from && !(n.peers[from].isServer && n.peers[q].isServer)
  }

  ghost function Passing(n: Node, from: PeerId, qs: set<PeerId>): set<PeerId>
    requires from in n.peers && qs <= n.peers.Keys
  {
    set q | q in qs && Passes(n, from, q)
  }

  lemma PassingOneMore(n: Node, from: PeerId, qs: set<PeerId>, q: PeerId)
    requires from in n.peers && qs <= n.peers.Keys && q in n.peers
    ensures Passing(n, from, qs + {q}) == if Passes(n, from, q) then Passing(n, from, qs) + {q} else Passing(n, from, qs)
  {
  }

  lemma TargetsAre(n: Node, vni: VNI, from: PeerId, subscribed: set<PeerId>)
    requires from in n.peers && subscribed <= n.peers.Keys
    requires forall q :: (vni, q) in n.subs <==> q in subscribed
    ensures Targets(n, vni, from) == Passing(n, from, subscribed)
  {
  }

  lemma {:induction false} DeliverNone(n: Node, m: Message)
    ensures Deliver(n, m, {}) == n
    ensures ToSet<PeerId>([]) == {}
  {
    assert Deliver(n, m, {}).peers == n.peers;
  }

  lemma {:induction false} DeliverOneMore(n: Node, m: Message, done: set<PeerId>, q: PeerId)
    requires q in n.peers && q !in done
    ensures Deliver(n, m, done).peers.Keys == n.peers.Keys
    ensures Deliver(n, m, done).peers[q] == n.peers[q]
    ensures SendEstablished(Deliver(n, m, done), q, m) == Deliver(n, m, done + {q})
  {
    assert SendEstablished(Deliver(n, m, done), q, m).peers == Deliver(n, m, done + {q}).peers;
  }

  lemma SkipsAgree(n: Node, m: Message, done: set<PeerId>, from: PeerId, q: PeerId)
    requires from in n.peers && q in n.peers
    ensures Deliver(n, m, done).peers[from].isServer == n.peers[from].isServer
    ensures Deliver(n, m, done).peers[q].isServer == n.peers[q].isServer
  {
  }

  /** The peers of `order` are those of `members` not in `todo`, and have all taken the message. */
  ghost predicate Tried(n: Node, m: Message, order: seq<PeerId>, members: set<PeerId>, todo: set<PeerId>) {
    && members <= n.peers.Keys
    && Enumerates(order, members - todo)
    && (forall q :: q in order ==> q in n.peers && Accepts(n.peers[q], m))
  }

  lemma {:induction false} Untried(n: Node, m: Message, members: set<PeerId>) returns (order: seq<PeerId>)
    requires members <= n.peers.Keys
    ensures Tried(n, m, order, members, members) && n == Deliver(n, m, ToSet(order))
  {
    order := [];
    DeliverNone(n, m);
  }

  lemma {:induction false} TriesNext(n: Node, m: Message, order: seq<PeerId>, members: set<PeerId>, todo: set<PeerId>, p: PeerId)
    requires Tried(n, m, order, members, todo) && todo <= members && p in todo
    ensures p in Deliver(n, m, ToSet(order)).peers
    ensures Deliver(n, m, ToSet(order)).peers[p] == n.peers[p]
    ensures Accepts(n.peers[p], m) ==>
      && Tried(n, m, order + [p], members, todo - {p})
      && SendEstablished(Deliver(n, m, ToSet(order)), p, m) == Deliver(n, m, ToSet(order + [p]))
    ensures !Accepts(n.peers[p], m) ==> SendEstablished(Deliver(n, m, ToSet(order)), p, m) == Deliver(n, m, ToSet(order))
  {
    hide Deliver;
    assert p !in order;
    DeliverOneMore(n, m, ToSet(order), p);
    assert ToSet(order + [p]) == ToSet(order) + {p};
    assert members - (todo - {p}) == (members - todo) + {p};
  }

  lemma {:induction false} GivesUp(n: Node, m: Message, order: seq<PeerId>, members: set<PeerId>, todo: set<PeerId>, p: PeerId)
    returns (whole: seq<PeerId>)
    requires Tried(n, m, order, members, todo) && todo <= members && p in todo && !Accepts(n.peers[p], m)
    ensures Enumerates(whole, members) && (forall q :: q in whole ==> q in n.peers)
    ensures SendToMembers(n, m, whole) == Deliver(n, m, ToSet(order))
    ensures Reached(n, m, whole) != |whole|
  {
    hide Deliver;
    var rest := AnOrder(todo - {p});
    whole := order + ([p] + rest);
    EnumeratesTogether(order, members - todo, [p] + rest, todo);
    assert members - todo + todo == members;
    GivesUpAt(n, m, order, p, rest);
  }

  lemma {:induction false} TriedAll(n: Node, m: Message, order: seq<PeerId>, members: set<PeerId>)
    requires Tried(n, m, order, members, {})
    ensures Enumerates(order, members) && (forall q :: q in order ==> q in n.peers)
    ensures SendToMembers(n, m, order) == Deliver(n, m, ToSet(order))
    ensures Reached(n, m, order) == |order|
  {
    hide Deliver;
    assert members - {} == members;
    ReachesAll(n, m, order);
    assert order[..|order|] == order;
  }

  lemma {:induction false} GivesUpAt(n: Node, m: Message, done: seq<PeerId>, p: PeerId, rest: seq<PeerId>)
    requires forall q :: q in done ==> q in n.peers && Accepts(n.peers[q], m)
    requires p in n.peers && !Accepts(n.peers[p], m)
    requires forall q :: q in rest ==> q in n.peers
    ensures Reached(n, m, done + ([p] + rest)) == |done|
    ensures (done + ([p] + rest))[..|done|] == done
    decreases |done|
  {
    if done == [] {
      assert done + ([p] + rest) == [p] + rest;
    } else {
      GivesUpAt(n, m, done[1..], p, rest);
      assert (done + ([p] + rest))[1..] == done[1..] + ([p] + rest);
    }
  }

  lemma {:induction false} ReachesAll(n: Node, m: Message, order: seq<PeerId>)
    requires forall q :: q in order ==> q in n.peers
    ensures Reached(n, m, order) == |order| <==> forall q :: q in order ==> Accepts(n.peers[q], m)
  {
    if order != [] {
      ReachesAll(n, m, order[1..]);
      assert order == [order[0]] + order[1..];
    }
  }

  // What a handler comes to

  /** The handler of `e` ran to its end, or blocked for good on the way. */
  ghost predicate Outcome(n: Node, e: Event, blocked: bool, r: Node) {
    if blocked then Blocks(n, e) && r == Halted(n, e) else Enabled(n, e) && r == Step(n, e)
  }

  /** addReceivedRoute ignores a STANDARD route for a destination the node announces. */
  ghost predicate SkipsOwn(n: Node, path: Path) {
    path.hop.kind == STANDARD && AnnouncedAt(n, path.vni, path.dest)
  }

  ghost predicate Stores(n: Node, from: PeerId, path: Path) {
    !SkipsOwn(n, path) && Entry(path, Remote(from)) !in n.table
  }

  function HaltedRemoval(n: Node, from: PeerId, path: Path): Node {
    n.(table := n.table - {Entry(path, Remote(from))}, lastWithdrawn := n.lastWithdrawn[path := from])
  }

  /** The ways processRxUpdate can go. */
  lemma {:induction false} UpdateOutcomes(n: Node, p: PeerId, action: byte, path: Path)
    requires p in n.peers && path.dest.ipVersion in {IPV4, IPV6}
    ensures var e := EvUpdate(p, action, path);
      var x := Entry(path, Remote(p));
      var added, removed := SetReceived(n, p, n.peers[p].received + {x}), SetReceived(n, p, n.peers[p].received - {x});
      && (action == ADD && x in n.peers[p].received ==> Outcome(n, e, false, added))
      && (action == ADD && x !in n.peers[p].received ==>
            if n.locked && Stores(added, p, path) then Outcome(n, e, true, added.(table := added.table + {x}))
            else Outcome(n, e, false, AddReceived(added, p, path)))
      && (action == REMOVE && x !in n.peers[p].received ==> Outcome(n, e, false, removed))
      && (action == REMOVE && x in n.peers[p].received ==>
            if n.locked && OnlySource(removed.table, p, path) then Outcome(n, e, true, HaltedRemoval(removed, p, path))
            else Outcome(n, e, false, RemoveReceived(removed, p, path)))
      && (action != ADD && action != REMOVE ==> Outcome(n, e, false, n))
  {
    hide OnlySource;
    hide AddReceived;
    hide RemoveReceived;
    var x := Entry(path, Remote(p));
    var added := SetReceived(n, p, n.peers[p].received + {x});
    assert AnnouncedAt(added, path.vni, path.dest) == AnnouncedAt(n, path.vni, path.dest);
    if x in n.peers[p].received {
      assert n.peers[p].received + {x} == n.peers[p].received;
    } else {
      assert n.peers[p].received - {x} == n.peers[p].received;
    }
    assert n.peers[p := n.peers[p]] == n.peers;
  }

  lemma AnnounceOutcomes(n: Node, path: Path, order: seq<PeerId>)
    requires MembersInOrder(n, order)
    ensures var e := EvAnnounce(path, order);
      var n1 := n.(announced := n.announced + {path}, announcedHops := n.announcedHops + {path});
      && (path in n.announced ==> Outcome(n, e, false, n))
      && (path !in n.announced && n.locked ==> Outcome(n, e, true, n1))
      && (path !in n.announced && !n.locked ==> Outcome(n, e, false, SendToMembers(n1, Update(ADD, path), order)))
  {
  }

  lemma WithdrawOutcomes(n: Node, path: Path, order: seq<PeerId>)
    requires MembersInOrder(n, order)
    ensures var e := EvWithdraw(path, order);
      var n1 := n.(announced := n.announced - {path}, announcedHops := n.announcedHops - {path});
      && (path !in n.announced ==> Outcome(n, e, false, n))
      && (path in n.announced && n.locked ==> Outcome(n, e, true, n1))
      && (path in n.announced && !n.locked ==> Outcome(n, e, false, SendToMembers(n1, Update(REMOVE, path), order)))
  {
  }

  /** Every current peer is ESTABLISHED, outgoing where a SUBSCRIBE is sent, and an UPDATE names a known IP version. */
  ghost predicate AllTake(n: Node, m: Message) {
    forall q :: q in n.members ==>
      && q in n.peers && n.peers[q].state == Established
      && (m.Subscribe? ==> n.peers[q].direction == Outgoing)
      && (m.Update? ==> (m.action == 0 || m.action == 1) && (m.path.dest.ipVersion == 4 || m.path.dest.ipVersion == 6))
  }

  /** The message reaches everybody exactly when all take it; how far it gets depends on the peers alone. */
  lemma {:induction false} ReachedByPeers(n: Node, r: Node, m: Message, order: seq<PeerId>)
    requires r.peers == n.peers && (forall p :: p in order ==> p in n.peers) && (forall p :: p in order <==> p in n.members)
    ensures AllTake(n, m) <==> Reached(r, m, order) == |order|
  {
    ReachesAll(r, m, order);
  }

  lemma {:induction false} AnnouncedHops(n: Node, vni: VNI, dest: Destination, nhs: seq<NextHop>)
    requires forall h :: h in nhs <==> Path(vni, dest, h) in n.announcedHops
    ensures AnnouncedAt(n, vni, dest) <==> |nhs| > 0
  {
    if |nhs| > 0 {
      assert nhs[0] in nhs;
    }
    if AnnouncedAt(n, vni, dest) {
      var p :| p in n.announcedHops && p.vni == vni && p.dest == dest;
      assert p == Path(vni, dest, p.hop);
    }
  }

  lemma {:induction false} NoneLeft(table: set<Entry>, path: Path)
    ensures |SourcesOf(table, path)| == 0 <==> !HasSource(table, path)
  {
    if HasSource(table, path) {
      var s :| Entry(path, s) in table;
      assert s in SourcesOf(table, path);
    } else {
      assert SourcesOf(table, path) == {};
    }
  }

  lemma {:induction false} NoHopsListed(s: set<Path>, vni: VNI, dest: Destination, nhs: seq<NextHop>)
    ensures s + HopPaths(vni, dest, nhs[..0]) == s
    ensures nhs[..|nhs|] == nhs
  {
    assert HopPaths(vni, dest, nhs[..0]) == {};
  }

  lemma EnumeratesEmpty<T(!new)>()
    ensures Enumerates<T>([], {})
  {
  }

  lemma {:induction false} NoSourcesListed(s: set<Entry>, path: Path, sources: seq<Source>)
    ensures s + SourceEntries(path, sources[..0]) == s
    ensures sources[..|sources|] == sources
  {
    assert SourceEntries(path, sources[..0]) == {};
  }

  lemma NothingListed(vni: VNI, listing: map<Destination, SourceListing>, none: set<Destination>)
    requires none == {}
    ensures DestinationEntries(vni, listing, none) == {}
  {
  }

  lemma {:induction false} FirstSources(hops: SourceListing)
    ensures forall h :: h in hops && hops[h] != [] ==> exists s :: s in hops[h]
  {
    forall h | h in hops && hops[h] != [] ensures exists s :: s in hops[h] {
      assert hops[h][0] in hops[h];
    }
  }

  lemma {:induction false} SnapshotOneMore(n: Node, p: PeerId, order: seq<Entry>, e: Entry)
    requires p in n.peers
    ensures SendSnapshot(n, p, order).peers[p].state == n.peers[p].state
    ensures SendSnapshot(n, p, order + [e]) ==
      if Skipped(p, e) then SendSnapshot(n, p, order)
      else SendEstablished(SendSnapshot(n, p, order), p, Update(ADD, e.path))
  {
    assert (order + [e])[..|order|] == order;
    SnapshotOnlySends(n, p, order);
  }

  lemma {:induction false} SubscribedOnce(n: Node, p: PeerId, vni: VNI)
    requires p in n.peers
    ensures var peer := n.peers[p].(subscribedVNIs := n.peers[p].subscribedVNIs + {vni});
      var n1 := WithPeer(n, p, peer);
      WithPeer(n1.(subs := n1.subs + {(vni, p)}), p, peer.(since := peer.since[vni := |peer.sent|]))
      == Joined(n, p, vni)
  {
    var peer := n.peers[p].(subscribedVNIs := n.peers[p].subscribedVNIs + {vni});
    var now := peer.(since := peer.since[vni := |peer.sent|]);
    assert n.peers[p := peer][p := now] == n.peers[p := now];
  }

  /** The hop keys of the announcements in some VNIs. */
  ghost function AnnouncedIn(n: Node, vnis: set<VNI>): set<Path> {
    set x | x in n.announcedHops && x.vni in vnis
  }

  lemma {:induction false} AnnouncingListing(n: Node, p: PeerId, before: seq<Path>, s: set<Path>, vni: VNI, listing: Listing)
    requires p in n.peers
    requires ListingOf(listing, vni, AnnouncedIn(SendAnnouncements(n, p, before), {vni}))
    ensures Listed(vni, listing, listing.Keys) == AnnouncedIn(n, {vni})
    ensures forall d :: d in listing ==> Distinct(listing[d])
    ensures s + Listed(vni, listing, listing.Keys - listing.Keys) == s
  {
    AnnouncementsOnlySend(n, p, before);
  }

  lemma AnnouncedBounds(n: Node, vnis: seq<VNI>)
    requires forall x :: x in n.announcedHops ==> x.vni in vnis
    ensures AnnouncedIn(n, ToSet(vnis[..0])) == {}
    ensures AnnouncedIn(n, ToSet(vnis)) == n.announcedHops
    ensures vnis[..|vnis|] == vnis
  {
  }

  lemma {:induction false} AnnouncedOneMore(n: Node, vnis: seq<VNI>, i: nat)
    requires Distinct(vnis) && i < |vnis|
    ensures forall x :: x in AnnouncedIn(n, ToSet(vnis[..i])) ==> x.vni != vnis[i]
    ensures AnnouncedIn(n, ToSet(vnis[..i])) + AnnouncedIn(n, {vnis[i]}) == AnnouncedIn(n, ToSet(vnis[..i + 1]))
  {
    assert vnis[..i + 1] == vnis[..i] + [vnis[i]];
  }

  lemma NoPurges(n: Node, p: PeerId)
    requires p in n.peers
    ensures PurgeOrdersOk(n, p, []) && Engine.RemoveSubscriptions(n, p, []) == n && VNIsOf([]) == []
    ensures Enumerates<VNI>([], {})
  {
  }

  lemma {:induction false} PurgesOneMore(n: Node, p: PeerId, purges: PurgeOrder, vni: VNI, order: seq<Path>)
    requires p in n.peers && PurgeOrdersOk(n, p, purges)
    requires Enumerates(order, ReceivedAt(Engine.RemoveSubscriptions(n, p, purges), p, vni))
    ensures PurgeOrdersOk(n, p, purges + [(vni, order)])
    ensures Engine.RemoveSubscriptions(n, p, purges + [(vni, order)])
         == Engine.RemoveSubscriber(Engine.RemoveSubscriptions(n, p, purges), p, vni, order)
    ensures VNIsOf(purges + [(vni, order)]) == VNIsOf(purges) + [vni]
  {
    assert (purges + [(vni, order)])[..|purges|] == purges;
  }

  // Several events in a row

  /** The events are enabled one after the other and end in `r`. */
  ghost predicate Leads(n: Node, es: seq<Event>, r: Node)
    decreases |es|
  {
    if es == [] then r == n
    else
      var before, e := es[..|es| - 1], es[|es| - 1];
      var mid := After(n, before);
      Leads(n, before, mid) && Enabled(mid, e) && r == Step(mid, e)
  }

  lemma LeadsNowhere(n: Node)
    ensures Leads(n, [], n)
  {
  }

  lemma LeadsAfter(n: Node, es: seq<Event>, r: Node)
    requires Leads(n, es, r)
    ensures r == After(n, es)
  {
  }

  lemma {:induction false} LeadsTo(n: Node, es: seq<Event>, mid: Node, e: Event, r: Node)
    requires Leads(n, es, mid) && Enabled(mid, e) && r == Step(mid, e)
    ensures Leads(n, es + [e], r)
  {
    hide Enabled;
    hide Step;
    LeadsAfter(n, es, mid);
    assert (es + [e])[..|es|] == es;
  }

  lemma {:induction false} LeadsOn(n: Node, es: seq<Event>, mid: Node, more: seq<Event>, r: Node)
    requires Leads(n, es, mid) && Leads(mid, more, r)
    ensures Leads(n, es + more, r)
    decreases |more|
  {
    hide Enabled;
    hide Step;
    if more == [] {
      assert es + more == es;
    } else {
      var k := |more| - 1;
      LeadsOn(n, es, mid, more[..k], After(mid, more[..k]));
      LeadsTo(n, es + more[..k], After(mid, more[..k]), more[k], r);
      assert es + more == es + more[..k] + [more[k]];
    }
  }

  lemma {:induction false} LeadsOne(n: Node, e: Event, r: Node)
    requires Enabled(n, e) && r == Step(n, e)
    ensures Leads(n, [e], r)
  {
    LeadsNowhere(n);
    LeadsTo(n, [], n, e, r);
    assert [] + [e] == [e];
  }

  lemma {:induction false} StayingPut(n: Node, p: PeerId) returns (vnis: seq<VNI>, paths: seq<Path>, purges: PurgeOrder)
    requires p in n.peers
    ensures CanSetState(n, p, n.peers[p].state, vnis, paths, purges)
    ensures Engine.SetState(n, p, n.peers[p].state, vnis, paths, purges) == WithPeer(n, p, n.peers[p].(state := n.peers[p].state))
    ensures !n.peers[p].state.Established? ==> vnis == [] && paths == []
  {
    vnis, paths, purges := [], [], [];
    if n.peers[p].state.Established? {
      vnis := AnOrder(n.mySubs);
      paths := AnOrder(n.announcedHops);
    }
  }

  lemma Establishing(n: Node, p: PeerId, vnis: seq<VNI>, paths: seq<Path>)
    requires p in n.peers && !n.peers[p].state.Established?
    requires Enumerates(vnis, n.mySubs) && Enumerates(paths, n.announcedHops)
    ensures CanSetState(n, p, Established, vnis, paths, [])
    ensures Engine.SetState(n, p, Established, vnis, paths, []) ==
      SendAnnouncements(SendSubscriptions(WithPeer(n, p, n.peers[p].(state := Established)), p, vnis), p, paths)
  {
  }

  lemma Losing(n: Node, p: PeerId, state: ConnState, purges: PurgeOrder)
    requires p in n.peers && !n.locked && !state.Established? && state != n.peers[p].state
    requires PurgesAllOf(WithPeer(n, p, n.peers[p].(state := state)), p, purges)
    ensures CanSetState(n, p, state, [], [], purges)
    ensures Engine.SetState(n, p, state, [], [], purges) ==
      Engine.RemoveSubscriptions(WithPeer(n, p, n.peers[p].(state := state)), p, purges)
  {
  }

  lemma ConnectIsEvent(n: Node, p: PeerId, direction: Direction, interval: nat)
    requires p !in n.peers
    ensures var e := EvConnect(p, direction, interval);
      && Enabled(n, e)
      && Step(n, e) == n.(members := n.members + {p},
                          peers := n.peers[p := Peer(direction, false, Connecting, interval, {}, {}, [], map[])])
  {
  }

  lemma LocalUnsubscribeIsEvent(n: Node, vni: VNI)
    ensures Enabled(n, EvLocalUnsubscribe(vni)) && Step(n, EvLocalUnsubscribe(vni)) == LocalUnsubscribe(n, vni)
  {
  }

  lemma UnsubscriptionClears(n: Node, vni: VNI)
    ensures forall t :: t in LocalUnsubscribe(n, vni).table <==>
      t in n.table && !(vni in n.mySubs && t.path.vni == vni && t.source.Remote? && t.source.id in n.members)
  {
  }

  lemma LocalSubscribeIsEvent(n: Node, vni: VNI, order: seq<PeerId>)
    requires MembersInOrder(n, order)
    ensures Enabled(n, EvLocalSubscribe(vni, order)) && Step(n, EvLocalSubscribe(vni, order)) == LocalSubscribe(n, vni, order)
  {
  }

  lemma ForgetIsEvent(n: Node, p: PeerId)
    requires p in n.peers
    ensures Enabled(n, EvForget(p)) && Step(n, EvForget(p)) == n.(members := n.members - {p})
  {
  }

  // Leaving a VNI

  ghost function PathsAt(n: Node, vni: VNI): set<Path> {
    set e | e in n.table && e.path.vni == vni :: e.path
  }

  lemma {:induction false} OneMoreTuple(p: PeerId, s: set<Path>, vni: VNI, dest: Destination, nhs: seq<NextHop>, i: nat, es: set<Entry>)
    requires i < |nhs|
    ensures var now := es - TuplesFrom(p, s + HopPaths(vni, dest, nhs[..i]));
      var e := Entry(Path(vni, dest, nhs[i]), Remote(p));
      && now - {e} == es - TuplesFrom(p, s + HopPaths(vni, dest, nhs[..i + 1]))
      && (e !in now ==> now == es - TuplesFrom(p, s + HopPaths(vni, dest, nhs[..i + 1])))
  {
    assert nhs[..i + 1] == nhs[..i] + [nhs[i]];
    assert HopPaths(vni, dest, nhs[..i + 1]) == HopPaths(vni, dest, nhs[..i]) + {Path(vni, dest, nhs[i])};
  }

  lemma {:induction false} SetReceivedTwice(n: Node, p: PeerId, a: set<Entry>)
    requires p in n.peers
    ensures SetReceived(n, p, a).peers[p].received == a
    ensures forall b :: SetReceived(SetReceived(n, p, a), p, b) == SetReceived(n, p, b)
  {
    forall b ensures SetReceived(SetReceived(n, p, a), p, b) == SetReceived(n, p, b) {
      assert SetReceived(SetReceived(n, p, a), p, b).peers == SetReceived(n, p, b).peers;
    }
  }

  lemma {:induction false} KeyStillThere(p: PeerId, s: set<Path>, vni: VNI, dest: Destination, nhs: seq<NextHop>, i: nat, table: set<Entry>)
    requires Distinct(nhs) && i < |nhs| && Path(vni, dest, nhs[i]) !in s
    requires HasSource(table, Path(vni, dest, nhs[i]))
    ensures HasSource(table - TuplesFrom(p, s + HopPaths(vni, dest, nhs[..i])), Path(vni, dest, nhs[i]))
  {
    var x :| Entry(Path(vni, dest, nhs[i]), x) in table;
    assert Entry(Path(vni, dest, nhs[i]), x) in table - TuplesFrom(p, s + HopPaths(vni, dest, nhs[..i]));
  }

  lemma {:induction false} ClearedNothing(n: Node, p: PeerId, vni: VNI, listing: Listing)
    requires p in n.peers && ListingOf(listing, vni, ReceivedAt(n, p, vni))
    ensures n == SetReceived(n, p, n.peers[p].received - TuplesFrom(p, {} + Listed(vni, listing, listing.Keys - listing.Keys)))
    ensures {} + Listed(vni, listing, listing.Keys) == ReceivedAt(n, p, vni)
  {
    assert TuplesFrom(p, {} + Listed(vni, listing, listing.Keys - listing.Keys)) == {};
    assert n.peers[p].received - {} == n.peers[p].received;
    assert n.peers[p := n.peers[p]] == n.peers;
  }

  lemma {:induction false} ClearedReceived(n: Node, p: PeerId, vni: VNI)
    requires p in n.peers && forall e :: e in n.peers[p].received ==> e.source == Remote(p)
    ensures n.peers[p].received - TuplesFrom(p, ReceivedAt(n, p, vni)) == set e | e in n.peers[p].received && e.path.vni != vni
  {
    forall e | e in n.peers[p].received ensures e in TuplesFrom(p, ReceivedAt(n, p, vni)) <==> e.path.vni == vni {
      if e.path.vni == vni {
        assert e.path in ReceivedAt(n, p, vni);
      }
    }
  }

  lemma {:induction false} SetThenPush(n: Node, p: PeerId, received: set<Entry>, m: Message)
    requires p in n.peers
    ensures Push(SetReceived(n, p, received), p, m)
         == WithPeer(n, p, n.peers[p].(received := received, sent := n.peers[p].sent + [m]))
  {
    assert Push(SetReceived(n, p, received), p, m).peers
        == n.peers[p := n.peers[p].(received := received, sent := n.peers[p].sent + [m])];
  }

  lemma {:induction false} ClearedNone(n: Node, p: PeerId, vni: VNI, listing: Listing)
    requires ListingOf(listing, vni, PathsAt(n, vni))
    ensures n == n.(table := n.table - TuplesFrom(p, {} + Listed(vni, listing, listing.Keys - listing.Keys)))
    ensures {} + Listed(vni, listing, listing.Keys) == PathsAt(n, vni)
    ensures forall d, h :: d in listing && h in listing[d] ==> HasSource(n.table, Path(vni, d, h))
  {
    assert TuplesFrom(p, {} + Listed(vni, listing, listing.Keys - listing.Keys)) == {};
    assert n.table - {} == n.table;
    forall d, h | d in listing && h in listing[d] ensures HasSource(n.table, Path(vni, d, h)) {
      assert Path(vni, d, h) in Listed(vni, listing, listing.Keys);
      var e :| e in n.table && e.path == Path(vni, d, h);
      assert Entry(Path(vni, d, h), e.source) in n.table;
    }
  }

  lemma {:induction false} ClearedTable(n: Node, p: PeerId, vni: VNI)
    ensures n.table - TuplesFrom(p, PathsAt(n, vni)) == set e | e in n.table && !(e.path.vni == vni && e.source == Remote(p))
  {
    forall e | e in n.table ensures e in TuplesFrom(p, PathsAt(n, vni)) <==> e.path.vni == vni && e.source == Remote(p) {
      if e.path.vni == vni && e.source == Remote(p) {
        assert e.path in PathsAt(n, vni);
      }
    }
  }

  lemma {:induction false} UnsubscribedNobody(n: Node, vni: VNI, nobody: set<PeerId>)
    requires nobody == {}
    ensures n == UnsubscribeMembers(n, vni, nobody)
  {
    assert UnsubscribeMembers(n, vni, nobody).peers == n.peers;
    assert UnsubscribeMembers(n, vni, nobody).table == n.table;
  }

  lemma {:induction false} UnsubscribeOneMore(n: Node, vni: VNI, done: set<PeerId>, p: PeerId)
    requires p in n.peers && p !in done
    ensures var m := UnsubscribeMembers(n, vni, done);
      && p in m.peers
      && var m1 := WithPeer(m, p, UnsubscribedPeer(m.peers[p], vni));
         m1.(table := set e | e in m1.table && !(e.path.vni == vni && e.source == Remote(p)))
         == UnsubscribeMembers(n, vni, done + {p})
  {
    var m := UnsubscribeMembers(n, vni, done);
    var m1 := WithPeer(m, p, UnsubscribedPeer(m.peers[p], vni));
    var r := UnsubscribeMembers(n, vni, done + {p});
    assert m1.peers == r.peers;
    assert (set e | e in m1.table && !(e.path.vni == vni && e.source == Remote(p))) == r.table;
  }

  // Cleanup

  ghost function ReceivedIn(n: Node, p: PeerId, vnis: set<VNI>): set<Path>
    requires p in n.peers
  {
    set e | e in n.peers[p].received && e.path.vni in vnis :: e.path
  }

  lemma ReceivedBounds(n: Node, p: PeerId, vnis: seq<VNI>)
    requires p in n.peers && forall e :: e in n.peers[p].received ==> e.path.vni in vnis
    ensures ReceivedIn(n, p, ToSet(vnis[..0])) == {}
    ensures ReceivedIn(n, p, ToSet(vnis)) == ReceivedPaths(n, p)
    ensures vnis[..|vnis|] == vnis
  {
  }

  lemma {:induction false} ReceivedOneMore(n: Node, p: PeerId, vnis: seq<VNI>, i: nat)
    requires p in n.peers && Distinct(vnis) && i < |vnis|
    ensures forall x :: x in ReceivedIn(n, p, ToSet(vnis[..i])) ==> x.vni != vnis[i]
    ensures ReceivedIn(n, p, ToSet(vnis[..i])) + ReceivedAt(n, p, vnis[i]) == ReceivedIn(n, p, ToSet(vnis[..i + 1]))
  {
    assert vnis[..i + 1] == vnis[..i] + [vnis[i]];
    assert ReceivedAt(n, p, vnis[i]) == ReceivedIn(n, p, {vnis[i]});
    assert ToSet(vnis[..i + 1]) == ToSet(vnis[..i]) + {vnis[i]};
  }

  // Purges

  /** None of the routes needs the lock when it leaves, or the lock is free. */
  ghost predicate Flows(n: Node, p: PeerId, order: seq<Path>) {
    n.locked ==> forall x :: x in order ==> !OnlySource(n.table, p, x)
  }

  /** The routes of `order` have left one by one; when blocked, the last of them waits to be distributed. */
  ghost predicate Purging(n: Node, p: PeerId, order: seq<Path>, blocked: bool, r: Node)
    requires p in n.peers
  {
    if blocked then
      && order != [] && n.locked
      && var before, x := order[..|order| - 1], order[|order| - 1];
         Flows(n, p, before) && OnlySource(n.table, p, x) && r == HaltedDrop(Purge(n, p, before), p, x)
    else Flows(n, p, order) && r == Purge(n, p, order)
  }

  lemma PurgingNothing(n: Node, p: PeerId)
    requires p in n.peers
    ensures Purging(n, p, [], false, n) && Enumerates<Path>([], {})
  {
  }

  lemma {:induction false} PurgedNode(n: Node, p: PeerId, order: seq<Path>, r: Node)
    requires p in n.peers && Purging(n, p, order, false, r)
    ensures r.peers.Keys == n.peers.Keys && r.locked == n.locked
    ensures r.table == n.table - From(p, order)
    ensures r.peers[p].received == n.peers[p].received - From(p, order)
  {
    PurgeEffect(n, p, order);
  }

  lemma {:induction false} OthersDoNotMatter(table: set<Entry>, p: PeerId, order: seq<Path>, path: Path)
    requires path !in order
    ensures OnlySource(table - From(p, order), p, path) == OnlySource(table, p, path)
  {
    var e := Entry(path, Remote(p));
    forall s ensures Entry(path, s) in table - From(p, order) - {e} <==> Entry(path, s) in table - {e} {
    }
    if HasSource(table - {e}, path) {
      var s :| Entry(path, s) in table - {e};
      assert Entry(path, s) in table - From(p, order) - {e};
    }
    if HasSource(table - From(p, order) - {e}, path) {
      var s :| Entry(path, s) in table - From(p, order) - {e};
      assert Entry(path, s) in table - {e};
    }
  }

  /** One more route leaves. */
  lemma {:induction false} DropsNext(n: Node, p: PeerId, order: seq<Path>, m: Node, path: Path)
    requires p in n.peers && Purging(n, p, order, false, m) && path !in order
    requires Entry(path, Remote(p)) in n.peers[p].received
    ensures p in m.peers && Entry(path, Remote(p)) in m.peers[p].received
    ensures if m.locked && OnlySource(m.table, p, path)
      then Purging(n, p, order + [path], true, HaltedDrop(m, p, path))
      else Purging(n, p, order + [path], false, DropRoute(m, p, path))
  {
    hide DropRoute;
    hide HaltedDrop;
    hide OnlySource;
    PurgedNode(n, p, order, m);
    OthersDoNotMatter(n.table, p, order, path);
    assert (order + [path])[..|order|] == order;
  }

  /** A whole visit of `target`, or a part of one that ended early. */
  ghost predicate Visits(order: seq<Path>, target: set<Path>, early: bool) {
    if early then Distinct(order) && ToSet(order) <= target else Enumerates(order, target)
  }

  lemma VisitsAll(order: seq<Path>, target: set<Path>)
    requires Enumerates(order, target)
    ensures Visits(order, target, false)
  {
  }

  lemma VisitsSome(order: seq<Path>, s: set<Path>, vni: VNI, dest: Destination, nhs: seq<NextHop>, i: nat)
    requires i < |nhs| && Enumerates(order, s + HopPaths(vni, dest, nhs[..i + 1]))
    ensures Visits(order, s + HopPaths(vni, dest, nhs), true)
  {
  }

  lemma VisitsListed(order: seq<Path>, s: set<Path>, vni: VNI, listing: Listing, done: set<Destination>, early: bool)
    requires done <= listing.Keys && Visits(order, s + Listed(vni, listing, done), early)
    ensures early ==> Visits(order, s + Listed(vni, listing, listing.Keys), true)
    ensures !early ==> Enumerates(order, s + Listed(vni, listing, done))
  {
  }

  ghost function ReceivedPaths(n: Node, p: PeerId): set<Path>
    requires p in n.peers
  {
    set e | e in n.peers[p].received :: e.path
  }

  lemma VisitsReceived(n: Node, p: PeerId, order: seq<Path>, vnis: seq<VNI>, i: nat, early: bool)
    requires p in n.peers && i < |vnis|
    requires Visits(order, ReceivedIn(n, p, ToSet(vnis[..i + 1])), early)
    ensures early ==> Visits(order, ReceivedPaths(n, p), true)
    ensures !early ==> Enumerates(order, ReceivedIn(n, p, ToSet(vnis[..i + 1])))
  {
  }

  lemma {:induction false} PurgeReachesListing(n: Node, p: PeerId, before: seq<Path>, m: Node, s: set<Path>, vni: VNI, listing: Listing)
    requires p in n.peers && Enumerates(before, s) && (forall x :: x in s ==> x.vni != vni)
    requires forall e :: e in n.peers[p].received ==> e.source == Remote(p)
    requires Purging(n, p, before, false, m) && p in m.peers && ListingOf(listing, vni, ReceivedAt(m, p, vni))
    ensures Listed(vni, listing, listing.Keys) == ReceivedAt(n, p, vni)
    ensures forall d :: d in listing ==> Distinct(listing[d])
    ensures forall d, h :: d in listing && h in listing[d] ==> Entry(Path(vni, d, h), Remote(p)) in n.peers[p].received
    ensures s + Listed(vni, listing, listing.Keys - listing.Keys) == s
  {
    PurgedNode(n, p, before, m);
    assert ReceivedAt(m, p, vni) == ReceivedAt(n, p, vni);
    forall d, h | d in listing && h in listing[d] ensures Entry(Path(vni, d, h), Remote(p)) in n.peers[p].received {
      assert Path(vni, d, h) in Listed(vni, listing, listing.Keys);
    }
  }

  lemma {:induction false} UnsubscribingKeepsTheLock(n: Node, vnis: seq<VNI>)
    ensures UnsubscribeAll(n, vnis).locked == n.locked
  {
    if vnis != [] {
      UnsubscribingKeepsTheLock(n, vnis[..|vnis| - 1]);
    }
  }

  lemma {:induction false} UnhinderedUpTo(table: set<Entry>, p: PeerId, before: seq<Path>, after: seq<Path>)
    requires forall x :: x in before ==> !OnlySource(table, p, x)
    requires after != [] ==> OnlySource(table, p, after[0])
    ensures Unhindered(table, p, before + after) == |before|
    decreases |before|
  {
    if before == [] {
      assert before + after == after;
    } else {
      UnhinderedUpTo(table, p, before[1..], after);
      assert (before + after)[1..] == before[1..] + after;
    }
  }

  /** A purge that blocked, seen as the visit it would have been. */
  lemma {:induction false} BlockedPurge(n: Node, p: PeerId, order: seq<Path>, rest: seq<Path>, r: Node)
    requires p in n.peers && Purging(n, p, order, true, r)
    ensures HaltedPurge(n, p, order + rest) == r
    ensures order[|order| - 1] in order + rest && OnlySource(n.table, p, order[|order| - 1])
  {
    hide OnlySource;
    hide HaltedDrop;
    var k := |order| - 1;
    var before, after := order[..k], [order[k]] + rest;
    UnhinderedUpTo(n.table, p, before, after);
    assert before + after == order + rest;
    assert (order + rest)[..k] == before && (order + rest)[k] == order[k];
  }

  lemma {:induction false} CleanupOutcomes(n: Node, p: PeerId, vnis: seq<VNI>, order: seq<Path>, blocked: bool, r: Node) returns (e: Event)
    requires p in n.peers && Enumerates(vnis, n.peers[p].subscribedVNIs)
    requires var n1 := UnsubscribeAll(n, vnis);
      && (forall x :: x in n1.peers[p].received ==> x.source == Remote(p))
      && Purging(n1, p, order, blocked, r) && Visits(order, ReceivedPaths(n1, p), blocked)
    ensures e.EvCleanup? && e.p == p && Outcome(n, e, blocked, r)
  {
    hide OnlySource;
    hide Purge;
    hide HaltedDrop;
    if blocked {
      e := CleanupBlocks(n, p, vnis, order, r);
    } else {
      UnsubscribingKeepsTheLock(n, vnis);
      CleanupCompletes(n, p, vnis, order);
      e := EvCleanup(p, vnis, order);
    }
  }

  lemma {:induction false} CleanupBlocks(n: Node, p: PeerId, vnis: seq<VNI>, order: seq<Path>, r: Node) returns (e: Event)
    requires p in n.peers && Enumerates(vnis, n.peers[p].subscribedVNIs)
    requires var n1 := UnsubscribeAll(n, vnis);
      Purging(n1, p, order, true, r) && Visits(order, ReceivedPaths(n1, p), true)
    ensures e.EvCleanup? && e.p == p && Outcome(n, e, true, r)
  {
    hide OnlySource;
    hide HaltedPurge;
    var n1 := UnsubscribeAll(n, vnis);
    UnsubscribingKeepsTheLock(n, vnis);
    var rest := AnOrder(ReceivedPaths(n1, p) - ToSet(order));
    EnumeratesTogether(order, ToSet(order), rest, ReceivedPaths(n1, p) - ToSet(order));
    assert ToSet(order) + (ReceivedPaths(n1, p) - ToSet(order)) == ReceivedPaths(n1, p);
    BlockedPurge(n1, p, order, rest, r);
    e := EvCleanup(p, vnis, order + rest);
  }

  lemma {:induction false} CleanupCompletes(n: Node, p: PeerId, vnis: seq<VNI>, order: seq<Path>)
    requires p in n.peers
    requires forall e :: e in UnsubscribeAll(n, vnis).peers[p].received ==> e.source == Remote(p)
    requires Enumerates(order, ReceivedPaths(UnsubscribeAll(n, vnis), p))
    ensures Engine.Cleanup(n, p, vnis, order) == Purge(UnsubscribeAll(n, vnis), p, order)
  {
    var n1 := UnsubscribeAll(n, vnis);
    forall e | e in From(p, order) ensures e in n1.peers[p].received {
      var x :| x in n1.peers[p].received && x.path == e.path;
      assert x == e;
    }
    PurgeNeverStops(n1, p, order);
  }

  // The other handlers

  lemma UnsubscribeOutcomes(n: Node, p: PeerId, vni: VNI, order: seq<Path>)
    requires p in n.peers && Enumerates(order, ReceivedAt(n, p, vni))
    ensures n.locked ==> Outcome(n, EvUnsubscribe(p, vni, order), true, n)
    ensures !n.locked ==> Outcome(n, EvUnsubscribe(p, vni, order), false, RxUnsubscribe(n, p, vni, order))
  {
  }

  lemma SubscribeOutcomes(n: Node, p: PeerId, vni: VNI, order: seq<Entry>)
    requires p in n.peers && Enumerates(order, SnapshotAt(n, vni))
    ensures var e := EvSubscribe(p, vni, order);
      var n1 := WithPeer(n, p, n.peers[p].(subscribedVNIs := n.peers[p].subscribedVNIs + {vni}));
      && (n.locked ==> Outcome(n, e, true, n1))
      && (!n.locked && (vni, p) in n.subs ==> Outcome(n, e, false, n1.(locked := true)))
      && (!n.locked && (vni, p) !in n.subs && n.peers[p].state.Established? ==>
            Outcome(n, e, false, SendSnapshot(Joined(n, p, vni), p, order)))
  {
  }

  lemma EarlyIsEvent(n: Node, p: PeerId, vni: VNI)
    requires p in n.peers && !n.locked && !n.peers[p].state.Established? && (vni, p) !in n.subs
    ensures Enabled(n, EvSubscribeEarly(p, vni)) && Step(n, EvSubscribeEarly(p, vni)) == Joined(n, p, vni)
  {
  }

  lemma SameSnapshot(n: Node, r: Node, vni: VNI)
    requires r.table == n.table
    ensures SnapshotAt(r, vni) == SnapshotAt(n, vni)
  {
  }

  lemma {:induction false} AnyListed(listing: map<Destination, SourceListing>, vni: VNI, p: PeerId, entries: set<Entry>)
    requires DestinationEntries(vni, listing, listing.Keys) == entries
    ensures (exists e :: e in entries && !Skipped(p, e)) <==>
      exists d | d in listing :: exists h | h in listing[d] :: exists s | s in listing[d][h] :: !(s == Remote(p) && h.kind == NAT)
  {
    if e :| e in entries && !Skipped(p, e) {
      assert e.path.dest in listing && e.path.hop in listing[e.path.dest] && e.source in listing[e.path.dest][e.path.hop];
    }
    if d :| d in listing && exists h | h in listing[d] :: exists s | s in listing[d][h] :: !(s == Remote(p) && h.kind == NAT) {
      var h :| h in listing[d] && exists s | s in listing[d][h] :: !(s == Remote(p) && h.kind == NAT);
      var s :| s in listing[d][h] && !(s == Remote(p) && h.kind == NAT);
      assert Entry(Path(vni, d, h), s) in DestinationEntries(vni, listing, listing.Keys);
    }
  }

  lemma SetStateOutcomes(n: Node, p: PeerId, state: ConnState, vnis: seq<VNI>, paths: seq<Path>, purges: PurgeOrder)
    requires p in n.peers
    ensures var e := EvSetState(p, state, vnis, paths, purges);
      && (n.locked && !state.Established? && state != n.peers[p].state ==>
            Outcome(n, e, true, WithPeer(n, p, n.peers[p].(state := state))))
      && (CanSetState(n, p, state, vnis, paths, purges) ==>
            Outcome(n, e, false, Engine.SetState(n, p, state, vnis, paths, purges)))
  {
  }

  lemma HelloOutcomes(n: Node, p: PeerId, interval: nat, isServer: bool, purges: PurgeOrder)
    requires p in n.peers
    ensures var e := EvHello(p, interval, isServer, purges);
      var n1 := NoteHello(n, p, interval, isServer);
      && (n.locked && !n.peers[p].state.HelloReceived? ==>
            Outcome(n, e, true, WithPeer(n1, p, n1.peers[p].(state := HelloReceived))))
      && (CanSetState(n1, p, HelloReceived, [], [], purges) ==>
            Outcome(n, e, false, Engine.SetState(n1, p, HelloReceived, [], [], purges)))
  {
  }

  // The stream of a peer that is lost

  lemma {:induction false} PurgeKeepsOwnStream(n: Node, p: PeerId, order: seq<Path>)
    requires p in n.peers
    ensures Purge(n, p, order).peers[p].sent == n.peers[p].sent
  {
    if order != [] {
      PurgeKeepsOwnStream(n, p, order[..|order| - 1]);
    }
  }

  lemma {:induction false} RemovalsKeepOwnStream(n: Node, p: PeerId, purges: PurgeOrder)
    requires p in n.peers
    ensures Engine.RemoveSubscriptions(n, p, purges).peers[p].sent == n.peers[p].sent
  {
    if purges != [] {
      var before, last := purges[..|purges| - 1], purges[|purges| - 1];
      RemovalsKeepOwnStream(n, p, before);
      PurgeKeepsOwnStream(Engine.RemoveSubscriptions(n, p, before), p, last.1);
    }
  }

  // Which events a call amounts to

  predicate IsSet(e: Event, p: PeerId, state: ConnState) {
    e.EvSetState? && e.p == p && e.state == state
  }

  predicate IsHello(e: Event, p: PeerId, interval: nat, isServer: bool) {
    e.EvHello? && e.p == p && e.interval == interval && e.isServer == isServer
  }

  /** The HELLO is taken, and an incoming peer sends its own and moves to HELLO_SENT, unless the lock stops it. */
  predicate Answers(
      es: seq<Event>, blocked: bool, p: PeerId, direction: Direction, interval: nat, isServer: bool, agreed: nat, nodeIsServer: bool)
  {
    && 1 <= |es| && IsHello(es[0], p, interval, isServer)
    && if direction.Outgoing? || (blocked && |es| == 1) then |es| == 1
       else |es| == 3 && es[1] == EvSendControl(p, Hello(agreed, nodeIsServer)) && IsSet(es[2], p, HelloSent)
  }

  /** The peer becomes ESTABLISHED where it should, and an incoming peer answers. */
  predicate KeepaliveEvents(es: seq<Event>, p: PeerId, direction: Direction, state: ConnState) {
    var answer := if direction.Incoming? then [EvSendControl(p, Keepalive)] else [];
    match Handshake.OnKeepalive(direction, state)
    case Establish => es != [] && IsSet(es[0], p, Established) && es[1..] == answer
    case Continue => es == answer
    case WrongState => es == []
  }

  /** unsafeRemovePeer: the peer is closed unless it was, and forgotten unless that blocks. */
  predicate RemovalEvents(es: seq<Event>, p: PeerId, state: ConnState, blocked: bool) {
    if state.Closed? then es == [EvForget(p)]
    else es != [] && IsSet(es[0], p, Closed) && es[1..] == if blocked then [] else [EvForget(p)]
  }

  /** The peers map, and the address each peer object was made with. */
  datatype AddressBook = AddressBook(registered: map<string, PeerId>, addrs: map<PeerId, string>)

  /**
   * Reset: an outgoing peer goes to RETRY. An incoming one is closed, and
   * whoever is registered under its address is closed and forgotten.
   */
  predicate ResetEvents(n: Node, book: AddressBook, p: PeerId, es: seq<Event>, blocked: bool) {
    && p in n.peers && p in book.addrs
    && if n.peers[p].state.Closed? then es == [] && !blocked
       else if n.peers[p].direction.Outgoing? then |es| == 1 && IsSet(es[0], p, Retry)
       else
         && es != [] && IsSet(es[0], p, Closed)
         && if blocked || book.addrs[p] !in book.registered then |es| == 1
            else
              var q := book.registered[book.addrs[p]];
              q in n.peers && RemovalEvents(es[1..], q, if q == p then Closed else n.peers[q].state, false)
  }

  function ResetBook(n: Node, book: AddressBook, p: PeerId): AddressBook {
    if p in n.peers && p in book.addrs && n.peers[p].direction.Incoming? && !n.peers[p].state.Closed?
    then book.(registered := book.registered - {book.addrs[p]})
    else book
  }

  /** processRxHello: interval 0 resets a peer that is not CLOSED, and hangs an outgoing one. */
  ghost predicate HelloEvents(
      n: Node, book: AddressBook, p: PeerId, interval: nat, isServer: bool, es: seq<Event>, blocked: bool, hangs: bool, nodeIsServer: bool)
  {
    && p in n.peers
    && var peer := n.peers[p];
       var agreed := Min(peer.interval, interval);
       if interval >= 1 || peer.state.Closed? then
         !hangs && Answers(es, blocked, p, peer.direction, interval, isServer, agreed, nodeIsServer)
       else if peer.direction.Outgoing? then
         hangs == !blocked && ResetEvents(n, book, p, es, blocked)
       else
         && !hangs
         && ((blocked && ResetEvents(n, book, p, es, true))
             || exists k :: 0 <= k <= |es| && ResetEvents(n, book, p, es[..k], false)
                  && Answers(es[k..], blocked, p, peer.direction, interval, isServer, agreed, nodeIsServer))
  }

  ghost predicate EarlyResets(n: Node, p: PeerId, vni: VNI)
    requires p in n.peers
  {
    !n.peers[p].state.Closed? && exists e :: e in SnapshotAt(n, vni) && !Skipped(p, e)
  }

  /** A SUBSCRIBE ahead of ESTABLISHED: the first route there is to send fails and resets the peer. */
  ghost predicate EarlyEvents(n: Node, book: AddressBook, p: PeerId, vni: VNI, es: seq<Event>, hangs: bool) {
    && p in n.peers
    && es != [] && es[0] == EvSubscribeEarly(p, vni)
    && (if EarlyResets(n, p, vni) then ResetEvents(n, book, p, es[1..], false) else |es| == 1)
    && (hangs <==> EarlyResets(n, p, vni) && n.peers[p].direction.Outgoing?)
  }

  lemma EarlyAlone(n: Node, book: AddressBook, p: PeerId, vni: VNI)
    requires p in n.peers
    ensures !EarlyResets(n, p, vni) ==> EarlyEvents(n, book, p, vni, [EvSubscribeEarly(p, vni)], false)
  {
  }

  lemma {:induction false} EarlyDone(n: Node, book: AddressBook, p: PeerId, vni: VNI, more: seq<Event>)
    requires p in n.peers && EarlyResets(n, p, vni) && ResetEvents(n, book, p, more, false)
    ensures EarlyEvents(n, book, p, vni, [EvSubscribeEarly(p, vni)] + more, n.peers[p].direction.Outgoing?)
  {
    assert ([EvSubscribeEarly(p, vni)] + more)[1..] == more;
  }

  lemma NoReset(n: Node, book: AddressBook, p: PeerId)
    requires p in n.peers
    ensures n.peers[p].state.Closed? ==> ResetBook(n, book, p) == book
  {
  }

  lemma ClosedOnly(n: Node, book: AddressBook, p: PeerId, es: seq<Event>)
    requires p in n.peers && p in book.addrs && !n.peers[p].state.Closed? && n.peers[p].direction.Incoming?
    requires |es| == 1 && IsSet(es[0], p, Closed)
    ensures ResetEvents(n, book, p, es, true)
    ensures book.addrs[p] !in book.registered ==> ResetEvents(n, book, p, es, false)
  {
  }

  lemma {:induction false} ClosedAndRemoved(n: Node, book: AddressBook, p: PeerId, first: seq<Event>, more: seq<Event>)
    requires p in n.peers && p in book.addrs && !n.peers[p].state.Closed? && n.peers[p].direction.Incoming?
    requires |first| == 1 && IsSet(first[0], p, Closed)
    requires book.addrs[p] !in book.registered ==> more == []
    requires book.addrs[p] in book.registered ==>
      var q := book.registered[book.addrs[p]];
      q in n.peers && RemovalEvents(more, q, if q == p then Closed else n.peers[q].state, false)
    ensures ResetEvents(n, book, p, first + more, false)
  {
    assert (first + more)[1..] == more;
  }

  lemma SameReset(n: Node, r: Node, book: AddressBook, p: PeerId, es: seq<Event>, blocked: bool)
    requires ResetEvents(r, book, p, es, blocked) && r.peers.Keys == n.peers.Keys
    requires forall q :: q in n.peers ==> r.peers[q].state == n.peers[q].state && r.peers[q].direction == n.peers[q].direction
    ensures ResetEvents(n, book, p, es, blocked) && ResetBook(n, book, p) == ResetBook(r, book, p)
  {
  }

  lemma ClosedAndForgotten(es: seq<Event>, p: PeerId, state: ConnState)
    requires if state.Closed? then es == [] else |es| == 1 && IsSet(es[0], p, Closed)
    ensures !state.Closed? ==> RemovalEvents(es, p, state, true)
    ensures RemovalEvents(es + [EvForget(p)], p, state, false)
  {
  }

  /** The events happened one after the other; when blocked, the last got as far as it could. */
  ghost predicate Ends(n: Node, es: seq<Event>, blocked: bool, r: Node) {
    if blocked then
      && es != []
      && var before := es[..|es| - 1];
         var mid := After(n, before);
         Leads(n, before, mid) && Outcome(mid, es[|es| - 1], true, r)
    else Leads(n, es, r)
  }

  lemma EndsWell(n: Node, es: seq<Event>, r: Node)
    requires Leads(n, es, r)
    ensures Ends(n, es, false, r)
  {
  }

  lemma {:induction false} EndsNowhere(n: Node)
    ensures Ends(n, [], false, n)
  {
    LeadsNowhere(n);
  }

  lemma LeadsIs(n: Node, es: seq<Event>, r: Node)
    requires Ends(n, es, false, r)
    ensures Leads(n, es, r)
  {
  }

  lemma {:induction false} EndsOne(n: Node, e: Event, blocked: bool, r: Node)
    requires Outcome(n, e, blocked, r)
    ensures Ends(n, [e], blocked, r)
  {
    if blocked {
      LeadsNowhere(n);
    } else {
      LeadsOne(n, e, r);
    }
  }

  lemma {:induction false} EndsEvent(n: Node, e: Event, r: Node)
    requires Enabled(n, e) && r == Step(n, e)
    ensures Ends(n, [e], false, r)
  {
    LeadsOne(n, e, r);
  }

  lemma {:induction false} EndsAfter(n: Node, es: seq<Event>, mid: Node, more: seq<Event>, blocked: bool, r: Node)
    requires Ends(n, es, false, mid) && Ends(mid, more, blocked, r)
    ensures Ends(n, es + more, blocked, r)
  {
    hide Outcome;
    if blocked {
      var k := |more| - 1;
      LeadsOn(n, es, mid, more[..k], After(mid, more[..k]));
      LeadsAfter(n, es + more[..k], After(mid, more[..k]));
      assert (es + more)[..|es + more| - 1] == es + more[..k];
    } else {
      LeadsOn(n, es, mid, more, r);
    }
  }

  // Calls on a server

  datatype Op =
    | Connects(addr: string, p: PeerId)
    | Receives(p: PeerId, m: Message)
    | Closes(p: PeerId)
    | CleansUp(p: PeerId)
    | Removes(addr: string)

  /** What the decoder may produce. */
  predicate Deliverable(m: Message) {
    m.Update? ==> m.path.dest.ipVersion in {IPV4, IPV6}
  }

  ghost predicate ComesEarly(n: Node, p: PeerId, m: Message)
    requires p in n.peers
  {
    m.Subscribe? && !n.peers[p].state.Established? && (m.vni, p) !in n.subs
  }

  ghost predicate ResetsOn(n: Node, p: PeerId, m: Message)
    requires p in n.peers
  {
    || (m.Hello? && m.interval < 1 && !n.peers[p].state.Closed?)
    || (ComesEarly(n, p, m) && EarlyResets(n, p, m.vni))
  }

  /** Exactly the events one thing that happens to the server amounts to. */
  ghost predicate Does(n: Node, book: AddressBook, op: Op, es: seq<Event>, interval: nat) {
    match op
    case Connects(addr, p) =>
      if p in n.peers then es == []
      else es == (if addr in book.registered then [EvForget(book.registered[addr])] else []) + [EvConnect(p, Incoming, interval)]
    case Receives(p, m) =>
      if p in n.peers && Deliverable(m) then Handles(n, book, p, m, es) else es == []
    case Closes(p) =>
      if p in n.peers && !n.peers[p].state.Closed? then |es| == 1 && IsSet(es[0], p, Closed) else es == []
    case CleansUp(p) =>
      if p in n.peers then |es| == 1 && es[0].EvCleanup? && es[0].p == p else es == []
    case Removes(addr) =>
      if addr in book.registered then
        var q := book.registered[addr];
        q in n.peers && RemovalEvents(es, q, n.peers[q].state, false)
      else es == []
  }

  ghost predicate Handles(n: Node, book: AddressBook, p: PeerId, m: Message, es: seq<Event>)
    requires p in n.peers
  {
    var peer := n.peers[p];
    match m
    case Hello(interval, isServer) =>
      HelloEvents(n, book, p, interval, isServer, es, false, ResetsOn(n, p, m) && peer.direction.Outgoing?, true)
    case Keepalive => KeepaliveEvents(es, p, peer.direction, peer.state)
    case Subscribe(vni) =>
      if ComesEarly(n, p, m) then EarlyEvents(n, book, p, vni, es, ResetsOn(n, p, m) && peer.direction.Outgoing?)
      else |es| == 1 && es[0].EvSubscribe? && es[0].p == p && es[0].vni == vni
    case Unsubscribe(vni) => |es| == 1 && es[0].EvUnsubscribe? && es[0].p == p && es[0].vni == vni
    case Update(action, path) => es == [EvUpdate(p, action, path)]
  }

  lemma ConnectionDoes(n: Node, book: AddressBook, addr: string, p: PeerId, interval: nat)
    requires p !in n.peers
    ensures Does(n, book, Connects(addr, p),
      (if addr in book.registered then [EvForget(book.registered[addr])] else []) + [EvConnect(p, Incoming, interval)], interval)
    ensures BookAfter(n, book, Connects(addr, p)) == AddressBook(book.registered[addr := p], book.addrs[p := addr])
  {
  }

  predicate PassedOver(n: Node, op: Op) {
    match op
    case Connects(_, p) => p in n.peers
    case Receives(p, m) => !(p in n.peers && Deliverable(m))
    case Closes(p) => p !in n.peers
    case CleansUp(p) => p !in n.peers
    case Removes(_) => false
  }

  /** What does not apply is passed over. */
  lemma DoesNotApply(n: Node, book: AddressBook, op: Op, interval: nat)
    ensures PassedOver(n, op) ==> Does(n, book, op, [], interval) && BookAfter(n, book, op) == book
  {
  }

  /** With the lock free, a handler hangs exactly when it resets an outgoing peer. */
  lemma HangsExactly(n: Node, book: AddressBook, p: PeerId, m: Message, es: seq<Event>, hangs: bool)
    requires p in n.peers
    ensures m.Hello? && HelloEvents(n, book, p, m.interval, m.isServer, es, false, hangs, true) ==>
      hangs == (ResetsOn(n, p, m) && n.peers[p].direction.Outgoing?)
    ensures m.Subscribe? && ComesEarly(n, p, m) && EarlyEvents(n, book, p, m.vni, es, hangs) ==>
      hangs == (ResetsOn(n, p, m) && n.peers[p].direction.Outgoing?)
  {
  }

  ghost function BookAfter(n: Node, book: AddressBook, op: Op): AddressBook {
    match op
    case Connects(addr, p) =>
      if p in n.peers then book else AddressBook(book.registered[addr := p], book.addrs[p := addr])
    case Receives(p, m) =>
      if p in n.peers && Deliverable(m) && ResetsOn(n, p, m) then ResetBook(n, book, p) else book
    case Removes(addr) => book.(registered := book.registered - {addr})
    case _ => book
  }

  ghost function Flat(parts: seq<seq<Event>>): seq<Event> {
    if parts == [] then [] else Flat(parts[..|parts| - 1]) + parts[|parts| - 1]
  }

  /** The address book after the first `k` calls. */
  ghost function BookAt(ops: seq<Op>, parts: seq<seq<Event>>, k: nat): AddressBook
    requires k <= |ops| && k <= |parts|
  {
    if k == 0 then AddressBook(map[], map[])
    else BookAfter(After(InitNode, Flat(parts[..k - 1])), BookAt(ops, parts, k - 1), ops[k - 1])
  }

  /** Each call in its turn amounts to exactly its part of the events. */
  ghost predicate Script(ops: seq<Op>, parts: seq<seq<Event>>, interval: nat) {
    && |parts| == |ops|
    && forall i :: 0 <= i < |ops| ==> Does(After(InitNode, Flat(parts[..i])), BookAt(ops, parts, i), ops[i], parts[i], interval)
  }

  lemma ScriptBegins(ops: seq<Op>, interval: nat)
    ensures Script(ops[..0], [], interval) && Flat([]) == [] && Leads(InitNode, Flat([]), InitNode)
    ensures BookAt(ops[..0], [], 0) == AddressBook(map[], map[])
  {
  }

  lemma {:induction false} SameBook(ops: seq<Op>, parts: seq<seq<Event>>, more: seq<Op>, events: seq<seq<Event>>, k: nat)
    requires k <= |ops| && k <= |parts| && ops <= more && parts <= events
    ensures BookAt(more, events, k) == BookAt(ops, parts, k)
  {
    hide BookAfter;
    hide After;
    if k > 0 {
      SameBook(ops, parts, more, events, k - 1);
      assert events[..k - 1] == parts[..k - 1];
    }
  }

  lemma {:induction false} ScriptGoesOn(ops: seq<Op>, k: nat, parts: seq<seq<Event>>, more: seq<Event>, interval: nat)
    requires k < |ops| && Script(ops[..k], parts, interval)
    requires Does(After(InitNode, Flat(parts)), BookAt(ops[..k], parts, k), ops[k], more, interval)
    ensures Script(ops[..k + 1], parts + [more], interval)
    ensures Flat(parts + [more]) == Flat(parts) + more
    ensures BookAt(ops[..k + 1], parts + [more], k + 1) == BookAfter(After(InitNode, Flat(parts)), BookAt(ops[..k], parts, k), ops[k])
  {
    hide Does;
    hide After;
    hide BookAfter;
    var events, all := parts + [more], ops[..k + 1];
    assert events[..k] == parts && all[k] == ops[k];
    assert Flat(events) == Flat(parts) + more;
    assert BookAt(all, events, k + 1) == BookAfter(After(InitNode, Flat(events[..k])), BookAt(all, events, k), all[k]);
    hide Flat;
    hide BookAt;
    SameBook(ops[..k], parts, all, events, k);
    forall i | 0 <= i < k + 1 ensures Does(After(InitNode, Flat(events[..i])), BookAt(all, events, i), all[i], events[i], interval) {
      SameBook(ops[..k], parts, all, events, i);
      if i < k {
        assert events[..i] == parts[..i] && ops[..k][i] == ops[i];
      }
    }
  }
}
