/**
 * The other direction of a connection: the SUBSCRIBE and UNSUBSCRIBE messages
 * of a client on their way to the server, whose reader sorts them into one
 * channel per type and whose select loop empties the channels in any order.
 */
module Upstream {
  import opened Types
  import opened Engine
  import opened Ownership
  import opened Views
  import Sending
  import EndToEnd

  /**
   * `s` is the client as the server's peer, `q` the server as the client's peer.
   * `read` messages of the client's stream have been read from the connection;
   * `subscribes` and `unsubscribes` are the server's channels for this peer.
   */
  datatype Uplink = Uplink(
    server: Node, s: PeerId, client: Node, q: PeerId, read: nat, subscribes: seq<VNI>, unsubscribes: seq<VNI>, missed: Missed)

  datatype UpEvent =
    | ServerWorks(e: Event)
    | ClientWorks(e: Event)
    | ReadUp
    | TakeSubscribe(snapshot: seq<Entry>)
    | TakeUnsubscribe(paths: seq<Path>)

  ghost predicate UpOk(l: Uplink) {
    && l.s in l.server.peers && l.q in l.client.peers && l.read <= |l.client.peers[l.q].sent|
    && ServerInv(l.server, l.missed)
  }

  /** What the client has told the server so far. */
  function Said(l: Uplink): seq<Message>
    requires l.q in l.client.peers
  {
    l.client.peers[l.q].sent
  }

  /** The handler the server runs. */
  function ServerEvent(l: Uplink, e: UpEvent): Event
    requires l.s in l.server.peers && !e.ClientWorks? && !e.ReadUp?
    requires (e.TakeSubscribe? ==> l.subscribes != []) && (e.TakeUnsubscribe? ==> l.unsubscribes != [])
  {
    match e
    case ServerWorks(e) => e
    case TakeSubscribe(snapshot) =>
      var vni := l.subscribes[0];
      if l.server.peers[l.s].state.Established? || (vni, l.s) in l.server.subs
      then EvSubscribe(l.s, vni, snapshot) else EvSubscribeEarly(l.s, vni)
    case TakeUnsubscribe(paths) => EvUnsubscribe(l.s, l.unsubscribes[0], paths)
  }

  ghost predicate UpEnabled(l: Uplink, e: UpEvent)
    requires UpOk(l)
  {
    match e
    case ServerWorks(e) =>
      FromPeer(e) && Enabled(l.server, e) && !((e.EvSubscribe? || e.EvSubscribeEarly? || e.EvUnsubscribe?) && e.p == l.s)
    case ClientWorks(e) => Enabled(l.client, e)
    case ReadUp => l.read < |Said(l)|
    case TakeSubscribe(_) => l.subscribes != [] && Enabled(l.server, ServerEvent(l, e))
    case TakeUnsubscribe(_) => l.unsubscribes != [] && Enabled(l.server, ServerEvent(l, e))
  }

  ghost function AtServer(l: Uplink, at: Event): Uplink
    requires Enabled(l.server, at)
  {
    l.(server := Step(l.server, at), missed := MissedAfter(l.server, at, l.missed))
  }

  ghost function UpStep(l: Uplink, e: UpEvent): Uplink
    requires UpOk(l) && UpEnabled(l, e)
  {
    match e
    case ClientWorks(e) => l.(client := Step(l.client, e))
    case ReadUp =>
      var m := Said(l)[l.read];
      l.(read := l.read + 1,
         subscribes := if m.Subscribe? then l.subscribes + [m.vni] else l.subscribes,
         unsubscribes := if m.Unsubscribe? then l.unsubscribes + [m.vni] else l.unsubscribes)
    case ServerWorks(_) => AtServer(l, ServerEvent(l, e))
    case TakeSubscribe(_) => AtServer(l, ServerEvent(l, e)).(subscribes := l.subscribes[1..])
    case TakeUnsubscribe(_) => AtServer(l, ServerEvent(l, e)).(unsubscribes := l.unsubscribes[1..])
  }

  ghost function UpAfter(l: Uplink, es: seq<UpEvent>): Uplink
    decreases |es|
  {
    if es == [] then l
    else
      var mid := UpAfter(l, es[..|es| - 1]);
      var e := es[|es| - 1];
      if UpOk(mid) && UpEnabled(mid, e) then UpStep(mid, e) else mid
  }

  // Messages under way

  ghost predicate OnTheWire(l: Uplink, m: Message)
    requires l.q in l.client.peers
  {
    exists i :: l.read <= i < |Said(l)| && Said(l)[i] == m
  }

  ghost predicate SubscribeUnderWay(l: Uplink, vni: VNI)
    requires l.q in l.client.peers
  {
    vni in l.subscribes || OnTheWire(l, Subscribe(vni))
  }

  ghost predicate UnsubscribeUnderWay(l: Uplink, vni: VNI)
    requires l.q in l.client.peers
  {
    vni in l.unsubscribes || OnTheWire(l, Unsubscribe(vni))
  }

  ghost predicate Subscribed(l: Uplink, vni: VNI) {
    (vni, l.s) in l.server.subs
  }

  // Streams only grow

  ghost predicate Grows(n: Node, r: Node, q: PeerId) {
    q in n.peers && q in r.peers && n.peers[q].sent <= r.peers[q].sent
  }

  lemma {:induction false} RemovalsGrow(n: Node, p: PeerId, purges: PurgeOrder, q: PeerId)
    requires p in n.peers && q in n.peers
    ensures Grows(n, RemoveSubscriptions(n, p, purges), q)
  {
    if purges != [] {
      var before, last := purges[..|purges| - 1], purges[|purges| - 1];
      RemovalsGrow(n, p, before, q);
      PurgeEffect(RemoveSubscriptions(n, p, before), p, last.1);
    }
  }

  lemma {:induction false} StateChangeGrows(
      n: Node, p: PeerId, state: ConnState, vnis: seq<VNI>, paths: seq<Path>, purges: PurgeOrder, q: PeerId)
    requires p in n.peers && q in n.peers
    ensures Grows(n, SetState(n, p, state, vnis, paths, purges), q)
  {
    if state.Established? {
      EstablishingOnlySends(n, p, vnis, paths, purges);
    } else {
      RemovalsGrow(n.(peers := n.peers[p := n.peers[p].(state := state)]), p, purges, q);
    }
  }

  lemma {:induction false} UnsubscriptionsGrow(n: Node, vnis: seq<VNI>, q: PeerId)
    requires q in n.peers
    ensures Grows(n, UnsubscribeAll(n, vnis), q)
  {
    if vnis != [] {
      UnsubscriptionsGrow(n, vnis[..|vnis| - 1], q);
    }
  }

  lemma {:induction false} UpdateGrows(n: Node, p: PeerId, action: byte, path: Path, q: PeerId)
    requires p in n.peers && q in n.peers
    ensures Grows(n, RxUpdate(n, p, action, path), q)
  {
    hide AddReceived;
    hide DropRoute;
    if action == REMOVE {
      DropRouteEffect(n, p, path);
    } else {
      AddReceivedEffect(SetReceived(n, p, n.peers[p].received + {Entry(path, Remote(p))}), p, path);
    }
  }

  lemma {:induction false} OwnWorkGrows(n: Node, e: Event, q: PeerId)
    requires Enabled(n, e) && (e.EvLocalSubscribe? || e.EvAnnounce? || e.EvWithdraw?) && q in n.peers
    ensures Grows(n, Step(n, e), q)
  {
    hide SendToMembers;
    match e
    case EvLocalSubscribe(vni, order) =>
      MembersOnlySend(n.(mySubs := n.mySubs + {vni}), Subscribe(vni), order);
    case EvAnnounce(path, order) =>
      MembersOnlySend(n.(announced := n.announced + {path}, announcedHops := n.announcedHops + {path}), Update(ADD, path), order);
    case EvWithdraw(path, order) =>
      MembersOnlySend(n.(announced := n.announced - {path}, announcedHops := n.announcedHops - {path}), Update(REMOVE, path), order);
  }

  lemma {:induction false} SubscribeGrows(n: Node, p: PeerId, vni: VNI, snapshot: seq<Entry>, q: PeerId)
    requires p in n.peers && q in n.peers
    ensures Grows(n, RxSubscribe(n, p, vni, snapshot), q)
  {
    SnapshotOnlySends(Joined(n, p, vni), p, snapshot);
  }

  lemma {:induction false} CleanupGrows(n: Node, p: PeerId, vnis: seq<VNI>, paths: seq<Path>, q: PeerId)
    requires p in n.peers && q in n.peers
    ensures Grows(n, Cleanup(n, p, vnis, paths), q)
  {
    hide UnsubscribeAll;
    UnsubscriptionsGrow(n, vnis, q);
    var n1 := UnsubscribeAll(n, vnis);
    PurgeEffect(n1, p, paths[..PresentPrefix(n1.peers[p].received, p, paths)]);
  }

  /** Whatever a node does, what it has sent to a peer stays sent. */
  lemma {:induction false} EveryStreamGrows(n: Node, e: Event, q: PeerId)
    requires Enabled(n, e) && q in n.peers
    ensures Grows(n, Step(n, e), q)
  {
    hide SetState;
    hide RxUpdate;
    hide RxSubscribe;
    hide Purge;
    hide Cleanup;
    hide CanSetState;
    hide Distributes;
    hide LocalSubscribe;
    hide Announce;
    hide Withdraw;
    hide OnlySource;
    hide Enumerates;
    match e
    case EvHello(p, interval, isServer, purges) =>
      StateChangeGrows(NoteHello(n, p, interval, isServer), p, HelloReceived, [], [], purges, q);
    case EvSetState(p, state, vnis, paths, purges) => StateChangeGrows(n, p, state, vnis, paths, purges, q);
    case EvUpdate(p, action, path) => UpdateGrows(n, p, action, path, q);
    case EvSubscribe(p, vni, snapshot) => SubscribeGrows(n, p, vni, snapshot, q);
    case EvUnsubscribe(p, vni, paths) => PurgeEffect(n, p, paths);
    case EvCleanup(p, vnis, paths) => CleanupGrows(n, p, vnis, paths, q);
    case EvLocalSubscribe(_, _) => OwnWorkGrows(n, e, q);
    case EvAnnounce(_, _) => OwnWorkGrows(n, e, q);
    case EvWithdraw(_, _) => OwnWorkGrows(n, e, q);
    case _ =>
  }

  /** Some of what the client has said between `l` and `r` is `m`. */
  ghost predicate SaidSince(l: Uplink, r: Uplink, m: Message)
    requires l.q in l.client.peers && r.q in r.client.peers
  {
    exists i :: |Said(l)| <= i < |Said(r)| && Said(r)[i] == m
  }

  ghost predicate Continues(l: Uplink, r: Uplink) {
    && UpOk(l) && UpOk(r) && r.s == l.s && r.q == l.q
    && Said(l) <= Said(r)
    && l.server.peers[l.s].sent <= r.server.peers[r.s].sent
  }

  lemma {:induction false} UpStepContinues(l: Uplink, e: UpEvent)
    requires UpOk(l) && UpEnabled(l, e)
    ensures Continues(l, UpStep(l, e))
  {
    hide Enabled;
    hide Step;
    hide ServerInv;
    hide MissedAfter;
    if e.ClientWorks? {
      EveryStreamGrows(l.client, e.e, l.q);
    } else if !e.ReadUp? {
      var at := ServerEvent(l, e);
      EveryStreamGrows(l.server, at, l.s);
      ServerStep(l.server, at, l.missed);
    }
  }

  // Subscribing and unsubscribing

  /** Without a SUBSCRIBE under way no subscription begins, and no UPDATE is sent but to one that was there. */
  lemma {:induction false} NoNewSubscription(l: Uplink, e: UpEvent, vni: VNI)
    requires UpOk(l) && UpEnabled(l, e) && !SubscribeUnderWay(l, vni)
    ensures var r := UpStep(l, e);
      && Continues(l, r)
      && (Subscribed(r, vni) ==> Subscribed(l, vni))
      && (forall i :: |l.server.peers[l.s].sent| <= i < |r.server.peers[r.s].sent| && !Subscribed(l, vni) ==>
            !(r.server.peers[r.s].sent[i].Update? && r.server.peers[r.s].sent[i].path.vni == vni))
  {
    UpStepContinues(l, e);
    hide Enabled;
    hide Step;
    hide ServerInv;
    hide MissedAfter;
    if !e.ClientWorks? && !e.ReadUp? {
      var at := ServerEvent(l, e);
      EndToEnd.StreamsGrow(l.server, at, l.s, l.missed);
      assert (vni, l.s) !in EndToEnd.FreshSubscription(l.server, at);
    }
  }

  /** The connection stays up: the server's peer is not put into another state than ESTABLISHED. */
  predicate StaysUp(e: Event, s: PeerId) {
    !((e.EvHello? || (e.EvSetState? && !e.state.Established?)) && e.p == s)
  }

  lemma {:induction false} StateChangeKeepsSubscription(
      n: Node, p: PeerId, state: ConnState, vnis: seq<VNI>, paths: seq<Path>, purges: PurgeOrder, s: PeerId, vni: VNI)
    requires Owned(n) && p in n.peers && CanSetState(n, p, state, vnis, paths, purges)
    requires (vni, s) in n.subs && (state.Established? || p != s)
    ensures (vni, s) in SetState(n, p, state, vnis, paths, purges).subs
  {
    if state.Established? {
      EstablishingOnlySends(n, p, vnis, paths, purges);
    } else if state != n.peers[p].state {
      ConnectionLost(n, p, state, vnis, paths, purges);
    }
  }

  lemma {:induction false} HelloKeepsSubscription(n: Node, p: PeerId, interval: nat, isServer: bool, purges: PurgeOrder, s: PeerId, vni: VNI)
    requires Owned(n) && Enabled(n, EvHello(p, interval, isServer, purges)) && (vni, s) in n.subs && p != s
    ensures (vni, s) in RxHello(n, p, interval, isServer, purges).subs
  {
    hide SetState;
    hide CanSetState;
    var n1 := NoteHello(n, p, interval, isServer);
    assert Owned(n1);
    StateChangeKeepsSubscription(n1, p, HelloReceived, [], [], purges, s, vni);
  }

  lemma {:induction false} UpdateKeepsSubscriptions(n: Node, p: PeerId, action: byte, path: Path)
    requires p in n.peers
    ensures RxUpdate(n, p, action, path).subs == n.subs
  {
    hide AddReceived;
    hide DropRoute;
    if action == REMOVE {
      DropRouteEffect(n, p, path);
    } else {
      AddReceivedEffect(SetReceived(n, p, n.peers[p].received + {Entry(path, Remote(p))}), p, path);
    }
  }

  lemma {:induction false} MessagesKeepSubscription(n: Node, e: Event, s: PeerId, vni: VNI)
    requires Enabled(n, e) && (vni, s) in n.subs && (e.EvSubscribe? || e.EvUnsubscribe?) && !(e.EvUnsubscribe? && e.p == s && e.vni == vni)
    ensures (vni, s) in Step(n, e).subs
  {
    hide SendSnapshot;
    hide Purge;
    match e
    case EvSubscribe(p, v, snapshot) => SnapshotOnlySends(Joined(n, p, v), p, snapshot);
    case EvUnsubscribe(p, v, paths) => PurgeEffect(n, p, paths);
  }

  lemma {:induction false} CleanupKeepsSubscriptions(n: Node, p: PeerId, vnis: seq<VNI>, paths: seq<Path>)
    requires PureServer(n) && p in n.peers
    ensures Cleanup(n, p, vnis, paths).subs == n.subs
  {
    NothingToUnsubscribe(n, vnis);
    PurgeEffect(n, p, paths[..PresentPrefix(n.peers[p].received, p, paths)]);
  }

  /** A subscription ends with its UNSUBSCRIBE or the connection only. */
  lemma {:induction false} SubscriptionStays(n: Node, e: Event, s: PeerId, vni: VNI)
    requires Owned(n) && PureServer(n) && Enabled(n, e) && FromPeer(e)
    requires (vni, s) in n.subs && StaysUp(e, s) && !(e.EvUnsubscribe? && e.p == s && e.vni == vni)
    ensures (vni, s) in Step(n, e).subs
  {
    hide SetState;
    hide CanSetState;
    hide RxHello;
    hide RxUpdate;
    hide RxSubscribe;
    hide RxUnsubscribe;
    hide Cleanup;
    hide Distributes;
    hide OnlySource;
    hide Owned;
    match e
    case EvHello(p, interval, isServer, purges) => HelloKeepsSubscription(n, p, interval, isServer, purges, s, vni);
    case EvSetState(p, state, vnis, paths, purges) => StateChangeKeepsSubscription(n, p, state, vnis, paths, purges, s, vni);
    case EvUpdate(p, action, path) => UpdateKeepsSubscriptions(n, p, action, path);
    case EvSubscribe(_, _, _) => MessagesKeepSubscription(n, e, s, vni);
    case EvUnsubscribe(_, _, _) => MessagesKeepSubscription(n, e, s, vni);
    case EvCleanup(p, vnis, paths) => CleanupKeepsSubscriptions(n, p, vnis, paths);
    case _ =>
  }

  // What is under way

  /** Only what the client says gets under way, and what is under way stays so until it is handled. */
  lemma {:induction false} UnderWayStep(l: Uplink, e: UpEvent, vni: VNI)
    requires UpOk(l) && UpEnabled(l, e) && Continues(l, UpStep(l, e))
    ensures var r := UpStep(l, e);
      && (SubscribeUnderWay(r, vni) ==> SubscribeUnderWay(l, vni) || SaidSince(l, r, Subscribe(vni)))
      && (UnsubscribeUnderWay(r, vni) ==> UnsubscribeUnderWay(l, vni) || SaidSince(l, r, Unsubscribe(vni)))
      && (SubscribeUnderWay(l, vni) ==> SubscribeUnderWay(r, vni) || (e.TakeSubscribe? && l.subscribes[0] == vni))
      && (UnsubscribeUnderWay(l, vni) ==> UnsubscribeUnderWay(r, vni) || (e.TakeUnsubscribe? && l.unsubscribes[0] == vni))
  {
    hide Enabled;
    hide Step;
    hide ServerInv;
    hide MissedAfter;
    WireStep(l, e, Subscribe(vni));
    WireStep(l, e, Unsubscribe(vni));
  }

  lemma {:induction false} WireStep(l: Uplink, e: UpEvent, m: Message)
    requires UpOk(l) && UpEnabled(l, e) && Continues(l, UpStep(l, e))
    ensures var r := UpStep(l, e);
      && (OnTheWire(r, m) ==> OnTheWire(l, m) || SaidSince(l, r, m))
      && (OnTheWire(l, m) ==> OnTheWire(r, m) || (e.ReadUp? && Said(l)[l.read] == m))
  {
    hide Enabled;
    hide Step;
    hide ServerInv;
    hide MissedAfter;
    var r := UpStep(l, e);
    if OnTheWire(r, m) {
      var i :| r.read <= i < |Said(r)| && Said(r)[i] == m;
      assert i < |Said(l)| ==> Said(l)[i] == m;
    }
    if OnTheWire(l, m) {
      var i :| l.read <= i < |Said(l)| && Said(l)[i] == m;
      assert Said(r)[i] == m;
    }
  }

  lemma {:induction false} TakenHasEffect(l: Uplink, e: UpEvent)
    requires UpOk(l) && UpEnabled(l, e)
    ensures e.TakeSubscribe? ==> Subscribed(UpStep(l, e), l.subscribes[0])
    ensures e.TakeUnsubscribe? ==> !Subscribed(UpStep(l, e), l.unsubscribes[0])
  {
    hide SendSnapshot;
    hide Purge;
    hide ServerInv;
    hide MissedAfter;
    match e
    case TakeSubscribe(snapshot) => SnapshotOnlySends(Joined(l.server, l.s, l.subscribes[0]), l.s, snapshot);
    case TakeUnsubscribe(paths) => PurgeEffect(l.server, l.s, paths);
    case _ =>
  }

  /** The subscription is over, or its end is under way. */
  ghost predicate Ending(l: Uplink, vni: VNI)
    requires l.q in l.client.peers
  {
    !SubscribeUnderWay(l, vni) && (Subscribed(l, vni) ==> UnsubscribeUnderWay(l, vni))
  }

  /** The subscription is there, or its beginning is under way. */
  ghost predicate Beginning(l: Uplink, vni: VNI)
    requires l.q in l.client.peers
  {
    !UnsubscribeUnderWay(l, vni) && (Subscribed(l, vni) || SubscribeUnderWay(l, vni))
  }

  lemma {:induction false} EndingStep(l: Uplink, e: UpEvent, vni: VNI)
    requires UpOk(l) && UpEnabled(l, e) && Ending(l, vni)
    ensures var r := UpStep(l, e);
      Continues(l, r) && (!SaidSince(l, r, Subscribe(vni)) ==> Ending(r, vni))
  {
    hide UpEnabled;
    hide UpStep;
    hide SubscribeUnderWay;
    hide UnsubscribeUnderWay;
    hide SaidSince;
    NoNewSubscription(l, e, vni);
    UnderWayStep(l, e, vni);
    TakenHasEffect(l, e);
  }

  lemma {:induction false} BeginningStep(l: Uplink, e: UpEvent, vni: VNI)
    requires UpOk(l) && UpEnabled(l, e) && Beginning(l, vni) && (e.ServerWorks? ==> StaysUp(e.e, l.s))
    ensures var r := UpStep(l, e);
      Continues(l, r) && (!SaidSince(l, r, Unsubscribe(vni)) ==> Beginning(r, vni))
  {
    UpStepContinues(l, e);
    UnderWayStep(l, e, vni);
    TakenHasEffect(l, e);
    if Subscribed(l, vni) {
      SubscriptionSurvives(l, e, vni);
    }
  }

  lemma {:induction false} SubscriptionSurvives(l: Uplink, e: UpEvent, vni: VNI)
    requires UpOk(l) && UpEnabled(l, e) && Subscribed(l, vni)
    requires vni !in l.unsubscribes && (e.ServerWorks? ==> StaysUp(e.e, l.s))
    ensures Subscribed(UpStep(l, e), vni)
  {
    hide Enabled;
    hide Step;
    hide MissedAfter;
    hide Told;
    hide Owned;
    hide PureServer;
    if !e.ClientWorks? && !e.ReadUp? {
      SubscriptionStays(l.server, ServerEvent(l, e), l.s, vni);
    }
  }

  // Whole runs

  ghost predicate UpFor(es: seq<UpEvent>, s: PeerId) {
    forall e :: e in es && e.ServerWorks? ==> StaysUp(e.e, s)
  }

  /** Every message that gets under way was said meanwhile, and no subscription begins of itself. */
  lemma {:induction false} UnderWayInEveryRun(l: Uplink, es: seq<UpEvent>, vni: VNI)
    requires UpOk(l)
    ensures var r := UpAfter(l, es);
      && Continues(l, r)
      && (OnTheWire(r, Subscribe(vni)) ==> OnTheWire(l, Subscribe(vni)) || SaidSince(l, r, Subscribe(vni)))
      && (UnsubscribeUnderWay(r, vni) ==> UnsubscribeUnderWay(l, vni) || SaidSince(l, r, Unsubscribe(vni)))
  {
    hide ServerInv;
    hide UpEnabled;
    hide UpStep;
    if es != [] {
      UnderWayInEveryRun(l, es[..|es| - 1], vni);
      var mid, e := UpAfter(l, es[..|es| - 1]), es[|es| - 1];
      if UpEnabled(mid, e) {
        UpStepContinues(mid, e);
        UnderWayStep(mid, e, vni);
        WireStep(mid, e, Subscribe(vni));
        SaidSoFar(l, mid, UpStep(mid, e), Subscribe(vni));
        SaidSoFar(l, mid, UpStep(mid, e), Unsubscribe(vni));
      }
    }
  }

  lemma {:induction false} SaidSoFar(l: Uplink, mid: Uplink, r: Uplink, m: Message)
    requires Continues(l, mid) && Continues(mid, r)
    ensures Continues(l, r)
    ensures SaidSince(l, mid, m) || SaidSince(mid, r, m) ==> SaidSince(l, r, m)
  {
    if i :| |Said(l)| <= i < |Said(mid)| && Said(mid)[i] == m {
      assert Said(r)[i] == m;
    }
  }

  lemma {:induction false} EndingInEveryRun(l: Uplink, es: seq<UpEvent>, vni: VNI)
    requires UpOk(l) && Ending(l, vni)
    ensures var r := UpAfter(l, es);
      Continues(l, r) && (!SaidSince(l, r, Subscribe(vni)) ==> Ending(r, vni))
  {
    hide ServerInv;
    hide UpEnabled;
    hide UpStep;
    hide Ending;
    if es != [] {
      EndingInEveryRun(l, es[..|es| - 1], vni);
      var mid, e := UpAfter(l, es[..|es| - 1]), es[|es| - 1];
      if UpEnabled(mid, e) {
        UpStepContinues(mid, e);
        SaidSoFar(l, mid, UpStep(mid, e), Subscribe(vni));
        if Ending(mid, vni) {
          EndingStep(mid, e, vni);
        }
      }
    }
  }

  lemma {:induction false} BeginningInEveryRun(l: Uplink, es: seq<UpEvent>, vni: VNI)
    requires UpOk(l) && Beginning(l, vni) && UpFor(es, l.s)
    ensures var r := UpAfter(l, es);
      Continues(l, r) && (!SaidSince(l, r, Unsubscribe(vni)) ==> Beginning(r, vni))
  {
    hide ServerInv;
    hide UpEnabled;
    hide UpStep;
    hide Beginning;
    if es != [] {
      BeginningInEveryRun(l, es[..|es| - 1], vni);
      var mid, e := UpAfter(l, es[..|es| - 1]), es[|es| - 1];
      assert e in es;
      if UpEnabled(mid, e) {
        UpStepContinues(mid, e);
        SaidSoFar(l, mid, UpStep(mid, e), Unsubscribe(vni));
        if Beginning(mid, vni) {
          BeginningStep(mid, e, vni);
        }
      }
    }
  }

  /** The server has sent the client an UPDATE of the VNI between `l` and `r`. */
  ghost predicate UpdatedSince(l: Uplink, r: Uplink, vni: VNI)
    requires l.s in l.server.peers && r.s in r.server.peers
  {
    exists i :: |l.server.peers[l.s].sent| <= i < |r.server.peers[r.s].sent|
      && r.server.peers[r.s].sent[i].Update? && r.server.peers[r.s].sent[i].path.vni == vni
  }

  /** Who is not subscribed and does not ask to be is sent nothing of the VNI. */
  lemma {:induction false} UnsubscribedHearsNothing(l: Uplink, es: seq<UpEvent>, vni: VNI)
    requires UpOk(l) && !Subscribed(l, vni) && !SubscribeUnderWay(l, vni)
    ensures var r := UpAfter(l, es);
      && Continues(l, r)
      && (!SaidSince(l, r, Subscribe(vni)) ==> !Subscribed(r, vni) && !SubscribeUnderWay(r, vni) && !UpdatedSince(l, r, vni))
  {
    hide ServerInv;
    hide UpEnabled;
    hide UpStep;
    hide SubscribeUnderWay;
    hide UnsubscribeUnderWay;
    hide SaidSince;
    if es != [] {
      UnsubscribedHearsNothing(l, es[..|es| - 1], vni);
      var mid, e := UpAfter(l, es[..|es| - 1]), es[|es| - 1];
      if UpEnabled(mid, e) {
        var r := UpStep(mid, e);
        UpStepContinues(mid, e);
        SaidSoFar(l, mid, r, Subscribe(vni));
        if !SaidSince(l, r, Subscribe(vni)) {
          UnderWayStep(mid, e, vni);
          NoNewSubscription(mid, e, vni);
          var was, now := mid.server.peers[mid.s].sent, r.server.peers[r.s].sent;
          forall i | |l.server.peers[l.s].sent| <= i < |now| ensures !(now[i].Update? && now[i].path.vni == vni) {
            assert i < |was| ==> was[i] == now[i];
          }
        }
      }
    }
  }

  // What comes of the client's own calls

  /** The uplink right after the server accepted the connection of `s`. */
  ghost function Opened(past: seq<Event>, s: PeerId, interval: nat, client: Node, q: PeerId): Uplink
    requires q in client.peers
  {
    var es := past + [EvConnect(s, Incoming, interval)];
    Uplink(After(InitNode, es), s, client, q, |client.peers[q].sent|, [], [], MissedIn(es))
  }

  lemma {:induction false} OpenedOk(past: seq<Event>, s: PeerId, interval: nat, client: Node, q: PeerId, vni: VNI)
    requires (forall e :: e in past ==> FromPeer(e)) && s !in After(InitNode, past).peers && q in client.peers
    ensures var l := Opened(past, s, interval, client, q);
      UpOk(l) && Ending(l, vni)
  {
    var es := past + [EvConnect(s, Incoming, interval)];
    ServerInvInEveryRun(es);
    assert es[..|es| - 1] == past;
    var n := After(InitNode, past);
    ServerInvInEveryRun(past);
    assert (vni, s) !in n.subs;
  }

  lemma {:induction false} SayingOther(l: Uplink, r: Uplink, m: Message, other: Message)
    requires l.q in l.client.peers && r.q in r.client.peers
    requires Said(r) == Said(l) + [m] && r.read == l.read <= |Said(l)|
    ensures OnTheWire(r, m)
    ensures other != m && OnTheWire(r, other) ==> OnTheWire(l, other)
  {
    assert Said(r)[|Said(l)|] == m;
  }

  /**
   * A client that is subscribed and whose SUBSCRIBEs for the VNI are handled
   * unsubscribes. Unless it says SUBSCRIBE again, under every schedule of both
   * nodes: as long as the server has it subscribed, UNSUBSCRIBE is under way.
   */
  lemma {:induction false} UnsubscriptionArrives(l: Uplink, es: seq<UpEvent>, vni: VNI)
    requires UpOk(l) && !SubscribeUnderWay(l, vni)
    requires vni in l.client.mySubs && l.q in l.client.members
    requires l.client.peers[l.q].direction == Outgoing && l.client.peers[l.q].state != Closed
    ensures var u := ClientWorks(EvLocalUnsubscribe(vni));
      && UpEnabled(l, u)
      && var l1, r := UpStep(l, u), UpAfter(UpStep(l, u), es);
         && Continues(l1, r) && vni !in l1.client.mySubs
         && (!SaidSince(l1, r, Subscribe(vni)) && Subscribed(r, vni) ==> UnsubscribeUnderWay(r, vni))
  {
    var u := ClientWorks(EvLocalUnsubscribe(vni));
    UpStepContinues(l, u);
    Sending.UnsubscriptionTellsMembers(l.client, vni);
    hide Enabled;
    hide Step;
    hide ServerInv;
    var l1 := UpStep(l, u);
    assert Said(l1) == Said(l) + [Unsubscribe(vni)];
    SayingOther(l, l1, Unsubscribe(vni), Subscribe(vni));
    EndingInEveryRun(l1, es, vni);
  }

  /**
   * A new subscription that reaches the peer. Unless the client says UNSUBSCRIBE,
   * and while the connection is up, the server has it subscribed or SUBSCRIBE is
   * under way.
   */
  lemma {:induction false} SubscriptionArrives(l: Uplink, order: seq<PeerId>, i: nat, es: seq<UpEvent>, vni: VNI)
    requires UpOk(l) && !UnsubscribeUnderWay(l, vni) && vni !in l.client.mySubs
    requires Enabled(l.client, EvLocalSubscribe(vni, order))
    requires i < |order| && order[i] == l.q && Sending.OpenUpTo(l.client, order, i, true)
    ensures var u := ClientWorks(EvLocalSubscribe(vni, order));
      && UpEnabled(l, u)
      && var l1, r := UpStep(l, u), UpAfter(UpStep(l, u), es);
         && Continues(l1, r) && vni in l1.client.mySubs
         && (UpFor(es, l.s) && !SaidSince(l1, r, Unsubscribe(vni)) ==> Subscribed(r, vni) || SubscribeUnderWay(r, vni))
  {
    var u := ClientWorks(EvLocalSubscribe(vni, order));
    UpStepContinues(l, u);
    Sending.SubscriptionTellsMembers(l.client, vni, order);
    hide Enabled;
    hide Step;
    hide ServerInv;
    var l1 := UpStep(l, u);
    assert Said(l1) == Said(l) + [Subscribe(vni)];
    SayingOther(l, l1, Subscribe(vni), Unsubscribe(vni));
    UnderWayInEveryRun(l1, es, vni);
    if UpFor(es, l.s) {
      BeginningInEveryRun(l1, es, vni);
    }
  }

  /**
   * The channels lose the order of SUBSCRIBE and UNSUBSCRIBE. When the server
   * handles the client's last UNSUBSCRIBE for a VNI, and every SUBSCRIBE it said
   * before has been read, then once these are handled too the server has it
   * subscribed if and only if one of them waited in the channel at that time.
   */
  lemma {:induction false} OvertakenSubscribeIff(l: Uplink, paths: seq<Path>, es: seq<UpEvent>, vni: VNI)
    requires UpOk(l) && UpEnabled(l, TakeUnsubscribe(paths)) && l.unsubscribes[0] == vni && vni !in l.unsubscribes[1..]
    requires !OnTheWire(l, Subscribe(vni)) && !OnTheWire(l, Unsubscribe(vni)) && UpFor(es, l.s)
    ensures var l1 := UpStep(l, TakeUnsubscribe(paths));
      var r := UpAfter(l1, es);
      && Continues(l1, r)
      && (!SaidSince(l1, r, Subscribe(vni)) && !SaidSince(l1, r, Unsubscribe(vni)) && vni !in r.subscribes ==>
            (Subscribed(r, vni) <==> vni in l.subscribes))
  {
    var e := TakeUnsubscribe(paths);
    TakenHasEffect(l, e);
    UpStepContinues(l, e);
    WireStep(l, e, Subscribe(vni));
    WireStep(l, e, Unsubscribe(vni));
    hide Enabled;
    hide Step;
    hide ServerInv;
    hide MissedAfter;
    var l1 := UpStep(l, e);
    assert Said(l1) == Said(l) && l1.subscribes == l.subscribes;
    UnderWayInEveryRun(l1, es, vni);
    if vni in l.subscribes {
      BeginningInEveryRun(l1, es, vni);
    } else {
      EndingInEveryRun(l1, es, vni);
    }
  }

  /** Both ends ESTABLISHED and nothing under way. */
  ghost predicate AtRest(l: Uplink) {
    && UpOk(l) && l.read == |Said(l)| && l.subscribes == [] && l.unsubscribes == []
    && l.server.peers[l.s].state == Established && !l.server.locked
    && l.client.members == {l.q} && l.client.peers[l.q].state == Established && l.client.peers[l.q].direction == Outgoing
  }

  /** The server is a current ESTABLISHED peer of the client. */
  ghost predicate Linked(l: Uplink) {
    l.q in l.client.peers && l.q in l.client.members && l.client.peers[l.q].direction == Outgoing && l.client.peers[l.q].state == Established
  }

  lemma {:induction false} SubscribeTold(n: Node, q: PeerId, vni: VNI)
    requires n.members == {q} && q in n.peers && n.peers[q].state == Established && n.peers[q].direction == Outgoing
    requires vni !in n.mySubs
    ensures Enabled(n, EvLocalSubscribe(vni, [q]))
    ensures var r := Step(n, EvLocalSubscribe(vni, [q]));
      && q in r.peers && r.members == n.members && r.mySubs == n.mySubs + {vni}
      && r.peers[q].state == Established && r.peers[q].direction == Outgoing
      && r.peers[q].sent == n.peers[q].sent + [Subscribe(vni)]
  {
    hide SendToMembers;
    MembersOnlySend(n.(mySubs := n.mySubs + {vni}), Subscribe(vni), [q]);
    assert [q][0] == q;
    Sending.SubscriptionTellsMembers(n, vni, [q]);
    assert Sending.OpenUpTo(n, [q], 0, true);
  }

  lemma {:induction false} SubscribeSaid(l: Uplink, vni: VNI)
    requires AtRest(l) && vni !in l.client.mySubs
    ensures var e := ClientWorks(EvLocalSubscribe(vni, [l.q]));
      && UpEnabled(l, e)
      && var r := UpStep(l, e);
         UpOk(r) && r == l.(client := r.client) && Linked(r) && vni in r.client.mySubs && Said(r) == Said(l) + [Subscribe(vni)]
  {
    hide ServerInv;
    SubscribeTold(l.client, l.q, vni);
    hide Enabled;
    hide Step;
  }

  lemma {:induction false} UnsubscribeSaid(l: Uplink, vni: VNI)
    requires UpOk(l) && Linked(l) && vni in l.client.mySubs
    ensures var e := ClientWorks(EvLocalUnsubscribe(vni));
      && UpEnabled(l, e)
      && var r := UpStep(l, e);
         UpOk(r) && r == l.(client := r.client) && vni !in r.client.mySubs && Said(r) == Said(l) + [Unsubscribe(vni)]
  {
    hide ServerInv;
    Sending.UnsubscriptionTellsMembers(l.client, vni);
    hide LocalUnsubscribe;
  }

  lemma {:induction false} BothRead(l: Uplink, vni: VNI)
    requires UpOk(l) && l.read + 2 == |Said(l)| && Said(l)[l.read..] == [Subscribe(vni), Unsubscribe(vni)]
    requires l.subscribes == [] && l.unsubscribes == []
    ensures UpEnabled(l, ReadUp) && UpOk(UpStep(l, ReadUp)) && UpEnabled(UpStep(l, ReadUp), ReadUp)
    ensures UpStep(UpStep(l, ReadUp), ReadUp) == l.(read := l.read + 2, subscribes := [vni], unsubscribes := [vni])
  {
    hide ServerInv;
    assert Said(l)[l.read] == Said(l)[l.read..][0] && Said(l)[l.read + 1] == Said(l)[l.read..][1];
  }

  lemma {:induction false} BothTaken(l: Uplink, vni: VNI)
    requires UpOk(l) && l.subscribes == [vni] && l.unsubscribes == [vni] && !Subscribed(l, vni)
    requires l.server.peers[l.s].state == Established && !l.server.locked
    requires SnapshotAt(l.server, vni) == {} && ReceivedAt(l.server, l.s, vni) == {}
    ensures UpEnabled(l, TakeUnsubscribe([]))
    ensures var l1 := UpStep(l, TakeUnsubscribe([]));
      && UpOk(l1) && UpEnabled(l1, TakeSubscribe([]))
      && var r := UpStep(l1, TakeSubscribe([]));
         UpOk(r) && Subscribed(r, vni) && r.client == l.client && r.q == l.q && r.read == l.read && r.subscribes == [] && r.unsubscribes == []
  {
    hide ServerInv;
    hide MissedAfter;
    var l1 := UpStep(l, TakeUnsubscribe([]));
    UpStepContinues(l, TakeUnsubscribe([]));
    assert SnapshotAt(l1.server, vni) == SnapshotAt(l.server, vni);
    UpStepContinues(l1, TakeSubscribe([]));
    TakenHasEffect(l1, TakeSubscribe([]));
  }

  /** The client subscribes and unsubscribes, both messages are read, and UNSUBSCRIBE is handled first. */
  function Overtaking(vni: VNI, q: PeerId): seq<UpEvent> {
    [ClientWorks(EvLocalSubscribe(vni, [q])), ClientWorks(EvLocalUnsubscribe(vni)), ReadUp, ReadUp] +
    [TakeUnsubscribe([]), TakeSubscribe([])]
  }

  lemma {:induction false} OneMore(l: Uplink, es: seq<UpEvent>, e: UpEvent)
    requires UpOk(UpAfter(l, es)) && UpEnabled(UpAfter(l, es), e)
    ensures UpAfter(l, es + [e]) == UpStep(UpAfter(l, es), e)
  {
    assert (es + [e])[..|es + [e]| - 1] == es;
  }

  lemma {:induction false} TwoMore(l: Uplink, es: seq<UpEvent>, e1: UpEvent, e2: UpEvent)
    requires UpOk(UpAfter(l, es)) && UpEnabled(UpAfter(l, es), e1)
    requires var mid := UpStep(UpAfter(l, es), e1); UpOk(mid) && UpEnabled(mid, e2)
    ensures UpAfter(l, es + [e1, e2]) == UpStep(UpStep(UpAfter(l, es), e1), e2)
  {
    OneMore(l, es, e1);
    OneMore(l, es + [e1], e2);
    assert es + [e1] + [e2] == es + [e1, e2];
  }

  lemma {:induction false} BothSaid(l: Uplink, vni: VNI)
    requires AtRest(l) && vni !in l.client.mySubs
    ensures var r := UpAfter(l, [ClientWorks(EvLocalSubscribe(vni, [l.q])), ClientWorks(EvLocalUnsubscribe(vni))]);
      && UpOk(r) && r == l.(client := r.client)
      && vni !in r.client.mySubs && Said(r) == Said(l) + [Subscribe(vni), Unsubscribe(vni)]
  {
    var e1, e2 := ClientWorks(EvLocalSubscribe(vni, [l.q])), ClientWorks(EvLocalUnsubscribe(vni));
    assert UpAfter(l, []) == l;
    SubscribeSaid(l, vni);
    UnsubscribeSaid(UpStep(l, e1), vni);
    hide UpStep;
    hide UpEnabled;
    hide UpAfter;
    hide ServerInv;
    hide Linked;
    hide AtRest;
    TwoMore(l, [], e1, e2);
    assert [] + [e1, e2] == [e1, e2];
  }

  /** So a client can end unsubscribed from a VNI with the server still sending it everything. */
  lemma {:induction false} OvertakenIsReachable(l: Uplink, vni: VNI)
    requires AtRest(l) && vni !in l.client.mySubs && !Subscribed(l, vni)
    requires SnapshotAt(l.server, vni) == {} && ReceivedAt(l.server, l.s, vni) == {}
    ensures var r := UpAfter(l, Overtaking(vni, l.q));
      && UpOk(r) && vni !in r.client.mySubs && Subscribed(r, vni)
      && r.read == |Said(r)| && r.subscribes == [] && r.unsubscribes == []
  {
    hide UpStep;
    hide UpEnabled;
    hide UpAfter;
    hide ServerInv;
    hide SnapshotAt;
    hide ReceivedAt;
    BothSaid(l, vni);
    var says := [ClientWorks(EvLocalSubscribe(vni, [l.q])), ClientWorks(EvLocalUnsubscribe(vni))];
    var l2 := UpAfter(l, says);
    assert Said(l2)[l.read..] == [Subscribe(vni), Unsubscribe(vni)];
    BothRead(l2, vni);
    TwoMore(l, says, ReadUp, ReadUp);
    BothTaken(UpAfter(l, says + [ReadUp, ReadUp]), vni);
    TwoMore(l, says + [ReadUp, ReadUp], TakeUnsubscribe([]), TakeSubscribe([]));
    assert Overtaking(vni, l.q) == says + [ReadUp, ReadUp] + [TakeUnsubscribe([]), TakeSubscribe([])];
  }
}
