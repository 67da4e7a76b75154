/**
 * Two races at the granularity of single lock acquisitions. In both, each side
 * first publishes its own fact and only then reads the other side's.
 */
module EstablishRace {
  import opened Types

  // AnnounceRoute and Subscribe against setState(ESTABLISHED) on a client with one peer.

  /**
   * AnnounceRoute: add to myAnnouncements; read the peer's state; send if it
   * was ESTABLISHED.
   */
  datatype Announcer = AStart | APublished | ARead(established: bool) | ADone

  /** MetalBond.Subscribe, which holds mtxMySubscriptions from publishing to its end. */
  datatype Subscriber = SStart | SPublished | SRead(established: bool) | SDone

  /**
   * setState: write the state; loop over mySubscriptions under the read lock;
   * snapshot the announced VNIs; for each, snapshot its hops and send them.
   */
  datatype Establisher =
    | EStart
    | EWritten
    | ESubscribing(vnis: set<VNI>)
    | ESubscribed
    | EAnnouncing(vnis: set<VNI>, hops: set<Path>)
    | EDone

  datatype Client = Client(
    established: bool,
    announcements: set<Path>,
    mySubs: set<VNI>,
    announcers: map<Path, Announcer>,
    subscribers: map<VNI, Subscriber>,
    e: Establisher,
    sentUpdates: set<Path>,
    sentSubscribes: set<VNI>)

  /** Any set of announcing and subscribing goroutines, none of which has started. */
  ghost predicate Init(c: Client) {
    && !c.established && c.e.EStart?
    && c.announcements == {} && c.mySubs == {}
    && (forall a :: a in c.announcers ==> c.announcers[a].AStart?)
    && (forall v :: v in c.subscribers ==> c.subscribers[v].SStart?)
  }

  /** mtxMySubscriptions is write-locked by a goroutine between publishing and its end. */
  ghost predicate WriteLocked(c: Client) {
    exists v :: v in c.subscribers && (c.subscribers[v].SPublished? || c.subscribers[v].SRead?)
  }

  datatype Step =
    | Publish(a: Path) | ReadState(a: Path) | SendUpdate(a: Path)
    | LockAndPublish(v: VNI) | ReadStateLocked(v: VNI) | SendAndUnlock(v: VNI)
    | WriteState
    | LockSubscriptions | SendOneSubscribe(v: VNI) | UnlockSubscriptions
    | SnapshotVNIs | SnapshotHops(v: VNI) | SendOneUpdate(a: Path) | Finish

  ghost predicate Enabled(c: Client, s: Step) {
    match s
    case Publish(a) => a in c.announcers && c.announcers[a].AStart?
    case ReadState(a) => a in c.announcers && c.announcers[a].APublished?
    case SendUpdate(a) => a in c.announcers && c.announcers[a].ARead?
    case LockAndPublish(v) => v in c.subscribers && c.subscribers[v].SStart? && !WriteLocked(c) && !c.e.ESubscribing?
    case ReadStateLocked(v) => v in c.subscribers && c.subscribers[v].SPublished?
    case SendAndUnlock(v) => v in c.subscribers && c.subscribers[v].SRead?
    case WriteState => c.e.EStart?
    case LockSubscriptions => c.e.EWritten? && !WriteLocked(c)
    case SendOneSubscribe(v) => c.e.ESubscribing? && v in c.e.vnis
    case UnlockSubscriptions => c.e.ESubscribing? && c.e.vnis == {}
    case SnapshotVNIs => c.e.ESubscribed?
    case SnapshotHops(v) => c.e.EAnnouncing? && c.e.hops == {} && v in c.e.vnis
    case SendOneUpdate(a) => c.e.EAnnouncing? && a in c.e.hops
    case Finish => c.e.EAnnouncing? && c.e.hops == {} && c.e.vnis == {}
  }

  function Next(c: Client, s: Step): Client {
    match s
    case Publish(a) => c.(announcements := c.announcements + {a}, announcers := c.announcers[a := APublished])
    case ReadState(a) => c.(announcers := c.announcers[a := ARead(c.established)])
    case SendUpdate(a) =>
      c.(announcers := c.announcers[a := ADone],
         sentUpdates := if a in c.announcers && c.announcers[a] == ARead(true) then c.sentUpdates + {a} else c.sentUpdates)
    case LockAndPublish(v) => c.(mySubs := c.mySubs + {v}, subscribers := c.subscribers[v := SPublished])
    case ReadStateLocked(v) => c.(subscribers := c.subscribers[v := SRead(c.established)])
    case SendAndUnlock(v) =>
      c.(subscribers := c.subscribers[v := SDone],
         sentSubscribes := if v in c.subscribers && c.subscribers[v] == SRead(true) then c.sentSubscribes + {v} else c.sentSubscribes)
    case WriteState => c.(established := true, e := EWritten)
    case LockSubscriptions => c.(e := ESubscribing(c.mySubs))
    case SendOneSubscribe(v) =>
      if c.e.ESubscribing? then c.(e := ESubscribing(c.e.vnis - {v}), sentSubscribes := c.sentSubscribes + {v}) else c
    case UnlockSubscriptions => c.(e := ESubscribed)
    case SnapshotVNIs => c.(e := EAnnouncing(set a | a in c.announcements :: a.vni, {}))
    case SnapshotHops(v) =>
      if c.e.EAnnouncing? then c.(e := EAnnouncing(c.e.vnis - {v}, set a | a in c.announcements && a.vni == v)) else c
    case SendOneUpdate(a) =>
      if c.e.EAnnouncing? then c.(e := EAnnouncing(c.e.vnis, c.e.hops - {a}), sentUpdates := c.sentUpdates + {a}) else c
    case Finish => c.(e := EDone)
  }

  /** setState will still pick the announcement up. */
  predicate AnnouncementAhead(c: Client, a: Path) {
    match c.e
    case EDone => false
    case EAnnouncing(vnis, hops) => a.vni in vnis || a in hops
    case _ => true
  }

  predicate SubscriptionAhead(c: Client, v: VNI) {
    match c.e
    case EStart => true
    case EWritten => true
    case ESubscribing(vnis) => v in vnis
    case _ => false
  }

  ghost predicate Inv(c: Client) {
    && (c.established <==> !c.e.EStart?)
    && (forall a :: a in c.announcers ==>
          && (!c.announcers[a].AStart? ==> a in c.announcements)
          && ((c.announcers[a].ADone? || c.announcers[a] == ARead(false)) && a !in c.sentUpdates ==> AnnouncementAhead(c, a)))
    && (forall v :: v in c.subscribers ==>
          && (!c.subscribers[v].SStart? ==> v in c.mySubs)
          && ((c.subscribers[v].SDone? || c.subscribers[v] == SRead(false)) && v !in c.sentSubscribes ==> SubscriptionAhead(c, v)))
  }

  lemma InvStep(c: Client, s: Step)
    requires Inv(c) && Enabled(c, s)
    ensures Inv(Next(c, s))
  {
  }

  ghost function After(c: Client, steps: seq<Step>): Client
    decreases |steps|
  {
    if steps == [] then c
    else
      var mid := After(c, steps[..|steps| - 1]);
      if Enabled(mid, steps[|steps| - 1]) then Next(mid, steps[|steps| - 1]) else mid
  }

  /**
   * Under every interleaving nothing is lost: once setState is done, every
   * announcement and every subscription whose call has returned was sent.
   */
  lemma {:induction false} NothingIsLost(c: Client, steps: seq<Step>)
    requires Init(c)
    ensures var r := After(c, steps);
      && Inv(r)
      && (r.e.EDone? ==>
            && (forall a :: a in r.announcers && r.announcers[a].ADone? ==> a in r.sentUpdates)
            && (forall v :: v in r.subscribers && r.subscribers[v].SDone? ==> v in r.sentSubscribes))
  {
    if steps != [] {
      NothingIsLost(c, steps[..|steps| - 1]);
      var mid := After(c, steps[..|steps| - 1]);
      if Enabled(mid, steps[|steps| - 1]) {
        InvStep(mid, steps[|steps| - 1]);
      }
    }
  }
}

module SubscribeRace {
  import opened Types
  import opened Engine
  import opened Views

  // One peer's SUBSCRIBE against the other peers' UPDATEs on the server.

  /** The handler a peer's goroutine is in, after its table operation and before its distribution. */
  datatype Handler = Idle | Added(path: Path) | Removed(path: Path, last: bool)

  /** addSubscriber: join the subscriber set; snapshot the table; send the snapshot. */
  datatype Joining = NotYet | Joined | Sending(todo: set<Entry>) | Done

  datatype Server = Server(
    s: PeerId,
    vni: VNI,
    table: set<Entry>,
    handlers: map<PeerId, Handler>,
    joining: Joining,
    log: seq<Message>)

  datatype Step =
    | AddNextHop(p: PeerId, path: Path)
    | RemoveNextHop(p: PeerId, path: Path)
    | Distribute(p: PeerId)
    | Join
    | Snapshot
    | SendOne(e: Entry)
    | Finish

  ghost predicate Enabled(m: Server, x: Step) {
    match x
    case AddNextHop(p, path) =>
      p in m.handlers && m.handlers[p].Idle? && Entry(path, Remote(p)) !in m.table
    case RemoveNextHop(p, path) =>
      p in m.handlers && m.handlers[p].Idle? && Entry(path, Remote(p)) in m.table
    case Distribute(p) => p in m.handlers && !m.handlers[p].Idle?
    case Join => m.joining.NotYet?
    case Snapshot => m.joining.Joined?
    case SendOne(e) => m.joining.Sending? && e in m.joining.todo
    case Finish => m.joining.Sending? && m.joining.todo == {}
  }

  /** What the distribution of handler `h` of peer `p` writes into the stream of `s`. */
  function Distributed(m: Server, p: PeerId, h: Handler): seq<Message> {
    match h
    case Idle => []
    case Added(path) =>
      if m.joining.NotYet? || p == m.s || path.vni != m.vni then [] else [Update(ADD, path)]
    case Removed(path, last) =>
      if m.joining.NotYet? || p == m.s || path.vni != m.vni || !last then [] else [Update(REMOVE, path)]
  }

  ghost function Next(m: Server, x: Step): Server
    requires Enabled(m, x)
  {
    match x
    case AddNextHop(p, path) =>
      m.(table := m.table + {Entry(path, Remote(p))}, handlers := m.handlers[p := Added(path)])
    case RemoveNextHop(p, path) =>
      var table := m.table - {Entry(path, Remote(p))};
      m.(table := table, handlers := m.handlers[p := Removed(path, !HasSource(table, path))])
    case Distribute(p) =>
      m.(handlers := m.handlers[p := Idle], log := m.log + Distributed(m, p, m.handlers[p]))
    case Join => m.(joining := Joined)
    case Snapshot => m.(joining := Sending(set e | e in m.table && e.path.vni == m.vni))
    case SendOne(e) =>
      m.(joining := Sending(m.joining.todo - {e}),
         log := if Skipped(m.s, e) then m.log else m.log + [Update(ADD, e.path)])
    case Finish => m.(joining := Done)
  }

  predicate ToldOf(m: Server, path: Path) {
    Update(ADD, path) in m.log
  }

  /** Each tuple somebody else sources was sent, or somebody is still on the way to sending it. */
  ghost predicate Inv(m: Server) {
    forall e :: e in m.table && e.source.Remote? && e.source.id != m.s && e.path.vni == m.vni ==>
      || ToldOf(m, e.path)
      || m.joining.NotYet? || m.joining.Joined?
      || (m.joining.Sending? && e in m.joining.todo)
      || (e.source.id in m.handlers && m.handlers[e.source.id] == Added(e.path))
  }

  ghost predicate Init(m: Server) {
    m.joining.NotYet? && forall p :: p in m.handlers ==> m.handlers[p].Idle?
  }

  lemma {:induction false} InvStep(m: Server, x: Step)
    requires Inv(m) && Enabled(m, x)
    ensures Inv(Next(m, x))
  {
    var r := Next(m, x);
    assert forall u :: u in m.log ==> u in r.log;
    if x.SendOne? && !Skipped(m.s, x.e) {
      assert Update(ADD, x.e.path) in r.log;
    }
    if x.Distribute? && m.handlers[x.p].Added? && Distributed(m, x.p, m.handlers[x.p]) != [] {
      assert Update(ADD, m.handlers[x.p].path) in r.log;
    }
  }

  ghost function After(m: Server, steps: seq<Step>): Server
    decreases |steps|
  {
    if steps == [] then m
    else
      var mid := After(m, steps[..|steps| - 1]);
      if Enabled(mid, steps[|steps| - 1]) then Next(mid, steps[|steps| - 1]) else mid
  }

  lemma {:induction false} InvInEveryRun(m: Server, steps: seq<Step>)
    requires Init(m)
    ensures Inv(After(m, steps)) && After(m, steps).s == m.s && After(m, steps).vni == m.vni
  {
    if steps != [] {
      InvInEveryRun(m, steps[..|steps| - 1]);
      var mid := After(m, steps[..|steps| - 1]);
      if Enabled(mid, steps[|steps| - 1]) {
        InvStep(mid, steps[|steps| - 1]);
      }
    }
  }

  /**
   * Under every interleaving of the SUBSCRIBE with any number of ADDs and
   * REMOVEs: once the handlers are done, every hop of the VNI that another peer
   * sources was sent to the new subscriber at least once.
   */
  lemma {:induction false} EveryHopIsTold(m: Server, steps: seq<Step>, e: Entry)
    requires Init(m)
    requires var r := After(m, steps);
      && r.joining.Done? && (forall p :: p in r.handlers ==> r.handlers[p].Idle?)
      && e in r.table && e.source.Remote? && e.source.id != m.s && e.path.vni == m.vni
    ensures ToldOf(After(m, steps), e.path)
  {
    InvInEveryRun(m, steps);
  }

  // Exactness, and the two interleavings that destroy it

  /**
   * What a read lock on the table during the snapshot and one lock around a
   * removal and its distribution would rule out, for one path: removing a tuple
   * that a snapshot is about to send, and adding a path while its last removal
   * is still to be distributed.
   */
  ghost predicate Disciplined(m: Server, x: Step, path: Path) {
    && (x.RemoveNextHop? && x.path == path && m.joining.Sending? ==> Entry(path, Remote(x.p)) !in m.joining.todo)
    && (x.AddNextHop? && x.path == path ==> x.p != m.s && forall p :: p in m.handlers ==> m.handlers[p] != Removed(path, true))
  }

  ghost predicate DisciplinedRun(m: Server, steps: seq<Step>, path: Path) {
    forall k :: 0 <= k < |steps| ==> Disciplined(After(m, steps[..k]), steps[k], path)
  }

  ghost predicate Exact(m: Server, path: Path) {
    && Entry(path, Remote(m.s)) !in m.table
    && (forall e :: e in m.table ==> e.source.Remote?)
    && (m.joining.NotYet? ==> m.log == [])
    && (m.joining.Sending? ==> forall e :: e in m.joining.todo && e.path == path ==> e in m.table)
    && (forall p :: p in m.handlers && m.handlers[p] == Added(path) ==> Entry(path, Remote(p)) in m.table)
    && (forall p :: p in m.handlers && m.handlers[p] == Removed(path, true) ==> !HasSource(m.table, path) && p != m.s)
    && (forall p :: Entry(path, Remote(p)) in m.table ==>
          || Replay(false, m.log, path)
          || m.joining.NotYet? || m.joining.Joined?
          || (m.joining.Sending? && Entry(path, Remote(p)) in m.joining.todo)
          || (p in m.handlers && m.handlers[p] == Added(path)))
    && (Replay(false, m.log, path) && !HasSource(m.table, path) ==>
          exists p :: p in m.handlers && m.handlers[p] == Removed(path, true))
  }

  lemma {:induction false} ExactTableStep(m: Server, x: Step, path: Path)
    requires Exact(m, path) && Enabled(m, x) && Disciplined(m, x, path)
    requires x.AddNextHop? || x.RemoveNextHop?
    ensures Exact(Next(m, x), path)
  {
    var r := Next(m, x);
    if HasSource(m.table, path) && !HasSource(r.table, path) {
      assert r.handlers[x.p] == Removed(path, true);
    }
    if x.AddNextHop? {
      assert Entry(x.path, Remote(x.p)) in r.table;
    }
    if x.AddNextHop? && HasSource(m.table, path) {
      var src :| Entry(path, src) in m.table;
      assert Entry(path, src) in r.table;
    }
    if Replay(false, m.log, path) && !HasSource(m.table, path) && !(x.AddNextHop? && x.path == path) {
      var p :| p in m.handlers && m.handlers[p] == Removed(path, true);
      assert r.handlers[p] == Removed(path, true);
    }
  }

  /** Adding or removing keeps exactness if and only if it is disciplined. */
  lemma {:induction false} ExactIffDisciplined(m: Server, x: Step, path: Path)
    requires Exact(m, path) && Enabled(m, x) && (x.AddNextHop? || x.RemoveNextHop?)
    ensures Exact(Next(m, x), path) <==> Disciplined(m, x, path)
  {
    if Disciplined(m, x, path) {
      ExactTableStep(m, x, path);
    } else {
      var r := Next(m, x);
      if x.RemoveNextHop? {
        assert Entry(path, Remote(x.p)) in r.joining.todo && Entry(path, Remote(x.p)) !in r.table;
      } else if x.p != m.s {
        var p :| p in m.handlers && m.handlers[p] == Removed(path, true);
        assert r.handlers[p] == Removed(path, true) && Entry(path, Remote(x.p)) in r.table;
      }
    }
  }

  lemma {:induction false} ExactDistribute(m: Server, p: PeerId, path: Path)
    requires Exact(m, path) && Enabled(m, Distribute(p)) && path.vni == m.vni
    ensures Exact(Next(m, Distribute(p)), path)
  {
    var r := Next(m, Distribute(p));
    var sent := Distributed(m, p, m.handlers[p]);
    if sent == [] {
      assert r.log == m.log;
    } else {
      ReplayAppend(false, m.log, sent[0], path);
      assert r.log == m.log + [sent[0]];
    }
    if m.handlers[p] == Added(path) {
      assert Entry(path, Remote(p)) in m.table && p != m.s;
    }
    if Replay(false, r.log, path) && !HasSource(m.table, path) {
      var q :| q in m.handlers && m.handlers[q] == Removed(path, true);
      assert q != p && r.handlers[q] == Removed(path, true);
    }
  }

  lemma {:induction false} ExactJoining(m: Server, x: Step, path: Path)
    requires Exact(m, path) && Enabled(m, x) && path.vni == m.vni
    requires x.Join? || x.Snapshot? || x.SendOne? || x.Finish?
    ensures Exact(Next(m, x), path)
  {
    var r := Next(m, x);
    if x.SendOne? && !Skipped(m.s, x.e) {
      ReplayAppend(false, m.log, Update(ADD, x.e.path), path);
      if x.e.path == path {
        assert Entry(path, x.e.source) in m.table;
      }
    }
  }

  lemma {:induction false} ExactInDisciplinedRuns(m: Server, steps: seq<Step>, path: Path)
    requires Init(m) && Exact(m, path) && path.vni == m.vni
    requires DisciplinedRun(m, steps, path)
    ensures Exact(After(m, steps), path)
  {
    if steps != [] {
      var k := |steps| - 1;
      var before := steps[..k];
      forall j | 0 <= j < |before| ensures Disciplined(After(m, before[..j]), before[j], path) {
        assert before[..j] == steps[..j];
      }
      ExactInDisciplinedRuns(m, before, path);
      InvInEveryRun(m, before);
      var mid, x := After(m, before), steps[k];
      if Enabled(mid, x) {
        if x.AddNextHop? || x.RemoveNextHop? {
          ExactTableStep(mid, x, path);
        } else if x.Distribute? {
          ExactDistribute(mid, x.p, path);
        } else {
          ExactJoining(mid, x, path);
        }
      }
    }
  }

  /**
   * Those two are the only harmful interleavings: in a run without them, once
   * the handlers are done, the replay of what the subscriber was sent holds a
   * path it does not source itself exactly when the table does.
   */
  lemma {:induction false} ExactWhenQuiet(m: Server, steps: seq<Step>, path: Path)
    requires Init(m) && m.log == [] && path.vni == m.vni
    requires Entry(path, Remote(m.s)) !in m.table && forall e :: e in m.table ==> e.source.Remote?
    requires DisciplinedRun(m, steps, path)
    requires var r := After(m, steps); r.joining.Done? && (forall p :: p in r.handlers ==> r.handlers[p].Idle?)
    ensures Replay(false, After(m, steps).log, path) <==> HasSource(After(m, steps).table, path)
  {
    ExactInDisciplinedRuns(m, steps, path);
    var r := After(m, steps);
    if HasSource(r.table, path) {
      var src :| Entry(path, src) in r.table;
      assert Entry(path, Remote(src.id)) in r.table;
    }
  }

  lemma {:induction false} AfterOne(m: Server, steps: seq<Step>, x: Step)
    requires Enabled(After(m, steps), x)
    ensures After(m, steps + [x]) == Next(After(m, steps), x)
  {
    assert (steps + [x])[..|steps|] == steps;
  }

  function ServerWith(s: PeerId, vni: VNI, table: set<Entry>, handlers: map<PeerId, Handler>): Server {
    Server(s, vni, table, handlers, NotYet, [])
  }

  /** A REMOVE distributed between the snapshot and its sending is overtaken by it: the route stays for good. */
  lemma {:induction false} RemoveOvertakenBySnapshot(s: PeerId, p: PeerId, path: Path)
    requires p != s
    ensures exists steps ::
      var r := After(ServerWith(s, path.vni, {Entry(path, Remote(p))}, map[p := Idle]), steps);
      && r.joining.Done? && r.handlers == map[p := Idle]
      && !HasSource(r.table, path) && Replay(false, r.log, path)
  {
    var e := Entry(path, Remote(p));
    var m := ServerWith(s, path.vni, {e}, map[p := Idle]);
    assert After(m, []) == m;
    AfterOne(m, [], Join);
    AfterOne(m, [] + [Join], Snapshot);
    var m2 := After(m, [] + [Join] + [Snapshot]);
    assert m2.joining.todo == {e};
    AfterOne(m, [] + [Join] + [Snapshot], RemoveNextHop(p, path));
    AfterOne(m, [] + [Join] + [Snapshot] + [RemoveNextHop(p, path)], Distribute(p));
    AfterOne(m, [] + [Join] + [Snapshot] + [RemoveNextHop(p, path)] + [Distribute(p)], SendOne(e));
    var steps := [] + [Join] + [Snapshot] + [RemoveNextHop(p, path)] + [Distribute(p)] + [SendOne(e)];
    var m5 := After(m, steps);
    assert m5.joining.todo == {};
    ReplayAppend(false, After(m, [] + [Join] + [Snapshot] + [RemoveNextHop(p, path)] + [Distribute(p)]).log, Update(ADD, path), path);
    AfterOne(m, steps, Finish);
    var r := After(m, steps + [Finish]);
    assert r.handlers == map[p := Idle];
  }

  /** The subscriber joins a quiet server that has one route. */
  lemma {:induction false} JoinsQuietly(m: Server, e: Entry)
    requires m.joining.NotYet? && m.table == {e} && e.path.vni == m.vni && !Skipped(m.s, e) && m.log == []
    ensures After(m, [] + [Join] + [Snapshot] + [SendOne(e)] + [Finish]) == m.(joining := Done, log := [Update(ADD, e.path)])
  {
    assert After(m, []) == m;
    hide After;
    hide Skipped;
    var todo := set x | x in m.table && x.path.vni == m.vni;
    assert todo == {e} && todo - {e} == {};
    AfterOne(m, [], Join);
    AfterOne(m, [] + [Join], Snapshot);
    AfterOne(m, [] + [Join] + [Snapshot], SendOne(e));
    AfterOne(m, [] + [Join] + [Snapshot] + [SendOne(e)], Finish);
  }

  /** A REMOVE distributed late takes away a route that another peer has just added. */
  lemma {:induction false} AddOvertakenByRemove(s: PeerId, p: PeerId, q: PeerId, path: Path)
    requires p != s && q != s && p != q
    ensures exists steps ::
      var r := After(ServerWith(s, path.vni, {Entry(path, Remote(p))}, map[p := Idle, q := Idle]), steps);
      && r.joining.Done? && r.handlers == map[p := Idle, q := Idle]
      && Entry(path, Remote(q)) in r.table && !Replay(false, r.log, path)
  {
    var e := Entry(path, Remote(p));
    var m := ServerWith(s, path.vni, {e}, map[p := Idle, q := Idle]);
    var joined := [] + [Join] + [Snapshot] + [SendOne(e)] + [Finish];
    JoinsQuietly(m, e);
    hide After;
    AfterOne(m, joined, RemoveNextHop(p, path));
    AfterOne(m, joined + [RemoveNextHop(p, path)], AddNextHop(q, path));
    AfterOne(m, joined + [RemoveNextHop(p, path)] + [AddNextHop(q, path)], Distribute(q));
    var steps := joined + [RemoveNextHop(p, path)] + [AddNextHop(q, path)] + [Distribute(q)];
    AfterOne(m, steps, Distribute(p));
    ReplayAppend(false, After(m, steps).log, Update(REMOVE, path), path);
    var r := After(m, steps + [Distribute(p)]);
    assert r.handlers == map[p := Idle, q := Idle];
  }
}

module WithdrawRace {
  import opened Types
  import opened Engine
  import opened Views

  // WithdrawRoute against setState(ESTABLISHED) on a client with one peer.

  /** WithdrawRoute: take the route out of myAnnouncements; read the peer's state; send REMOVE if it was ESTABLISHED. */
  datatype Withdrawer = WStart | WUnpublished | WRead(established: bool) | WDone

  /** setState: write the state; snapshot the announced VNIs; for each, snapshot its hops and send them. */
  datatype Establisher = EStart | EWritten | EAnnouncing(vnis: set<VNI>, hops: set<Path>) | EDone

  datatype Client = Client(
    established: bool,
    announcements: set<Path>,
    withdrawers: map<Path, Withdrawer>,
    e: Establisher,
    log: seq<Message>)

  /** Any announcements, and any set of goroutines about to withdraw some of them. */
  ghost predicate Init(c: Client) {
    && !c.established && c.e.EStart? && c.log == []
    && (forall a :: a in c.withdrawers ==> a in c.announcements && c.withdrawers[a].WStart?)
  }

  datatype Step =
    | Unpublish(a: Path) | ReadState(a: Path) | SendRemove(a: Path)
    | WriteState | SnapshotVNIs | SnapshotHops(v: VNI) | SendAdd(a: Path) | Finish

  predicate Enabled(c: Client, s: Step) {
    match s
    case Unpublish(a) => a in c.withdrawers && c.withdrawers[a].WStart? && a in c.announcements
    case ReadState(a) => a in c.withdrawers && c.withdrawers[a].WUnpublished?
    case SendRemove(a) => a in c.withdrawers && c.withdrawers[a].WRead?
    case WriteState => c.e.EStart?
    case SnapshotVNIs => c.e.EWritten?
    case SnapshotHops(v) => c.e.EAnnouncing? && c.e.hops == {} && v in c.e.vnis
    case SendAdd(a) => c.e.EAnnouncing? && a in c.e.hops
    case Finish => c.e.EAnnouncing? && c.e.hops == {} && c.e.vnis == {}
  }

  ghost function Next(c: Client, s: Step): Client
    requires Enabled(c, s)
  {
    match s
    case Unpublish(a) => c.(announcements := c.announcements - {a}, withdrawers := c.withdrawers[a := WUnpublished])
    case ReadState(a) => c.(withdrawers := c.withdrawers[a := WRead(c.established)])
    case SendRemove(a) =>
      c.(withdrawers := c.withdrawers[a := WDone],
         log := if c.withdrawers[a].established then c.log + [Update(REMOVE, a)] else c.log)
    case WriteState => c.(established := true, e := EWritten)
    case SnapshotVNIs => c.(e := EAnnouncing(set a | a in c.announcements :: a.vni, {}))
    case SnapshotHops(v) => c.(e := EAnnouncing(c.e.vnis - {v}, set a | a in c.announcements && a.vni == v))
    case SendAdd(a) => c.(e := EAnnouncing(c.e.vnis, c.e.hops - {a}), log := c.log + [Update(ADD, a)])
    case Finish => c.(e := EDone)
  }

  /** The route waits in a snapshot to be sent. */
  predicate Queued(c: Client, a: Path) {
    c.e.EAnnouncing? && a in c.e.hops
  }

  /** setState has still to come to the route. */
  predicate Ahead(c: Client, a: Path) {
    c.e.EStart? || c.e.EWritten? || (c.e.EAnnouncing? && (a.vni in c.e.vnis || a in c.e.hops))
  }

  /** What the server ends up with is what is announced, up to what is still on its way. */
  ghost predicate Exact(c: Client, a: Path) {
    && (!c.e.EStart? ==> c.established)
    && (c.log != [] ==> c.established)
    && (forall b :: b in c.withdrawers && c.withdrawers[b] == WRead(true) ==> c.established)
    && (a in c.announcements ==> Replay(false, c.log, a) || Ahead(c, a))
    && (a !in c.announcements ==>
          && !Queued(c, a)
          && (Replay(false, c.log, a) ==>
                a in c.withdrawers && (c.withdrawers[a].WUnpublished? || c.withdrawers[a] == WRead(true))))
    && (a in c.withdrawers && !c.withdrawers[a].WStart? ==> a !in c.announcements)
  }

  lemma InitIsExact(c: Client, a: Path)
    requires Init(c)
    ensures Exact(c, a)
  {
  }

  /** A withdrawal keeps exactness if and only if the route does not wait in a snapshot. */
  lemma {:induction false} WithdrawalIsExactIff(c: Client, a: Path)
    requires Exact(c, a) && Enabled(c, Unpublish(a))
    ensures Exact(Next(c, Unpublish(a)), a) <==> !Queued(c, a)
  {
    assert c.log == [] ==> !Replay(false, c.log, a);
  }

  /** Every other step keeps it. */
  lemma {:induction false} ExactStep(c: Client, s: Step, a: Path)
    requires Exact(c, a) && Enabled(c, s) && !(s == Unpublish(a) && Queued(c, a))
    ensures Exact(Next(c, s), a)
  {
    match s
    case Unpublish(b) => assert c.log == [] ==> !Replay(false, c.log, a);
    case SendRemove(b) =>
      if c.withdrawers[b].established {
        ReplayAppend(false, c.log, Update(REMOVE, b), a);
      }
    case SendAdd(b) => ReplayAppend(false, c.log, Update(ADD, b), a);
    case _ =>
  }

  ghost function After(c: Client, steps: seq<Step>): Client
    decreases |steps|
  {
    if steps == [] then c
    else
      var mid := After(c, steps[..|steps| - 1]);
      if Enabled(mid, steps[|steps| - 1]) then Next(mid, steps[|steps| - 1]) else mid
  }

  ghost predicate NeverQueued(c: Client, steps: seq<Step>, a: Path) {
    forall k :: 0 <= k < |steps| && steps[k] == Unpublish(a) ==> !Queued(After(c, steps[..k]), a)
  }

  /**
   * In every run in which the route is not withdrawn while it waits in a
   * snapshot: once everybody is done, the server has it exactly when it is
   * still announced.
   */
  lemma {:induction false} WithdrawnRoutesAreGone(c: Client, steps: seq<Step>, a: Path)
    requires Init(c) && NeverQueued(c, steps, a)
    ensures var r := After(c, steps);
      && Exact(r, a)
      && (r.e.EDone? && (a in r.withdrawers ==> r.withdrawers[a].WStart? || r.withdrawers[a].WDone?) ==>
            (Replay(false, r.log, a) <==> a in r.announcements))
  {
    if steps == [] {
      InitIsExact(c, a);
    } else {
      var k := |steps| - 1;
      var before := steps[..k];
      forall j | 0 <= j < |before| && before[j] == Unpublish(a) ensures !Queued(After(c, before[..j]), a) {
        assert before[..j] == steps[..j];
      }
      WithdrawnRoutesAreGone(c, before, a);
      var mid := After(c, before);
      if Enabled(mid, steps[k]) {
        ExactStep(mid, steps[k], a);
      }
    }
  }

  lemma {:induction false} AfterOne(c: Client, steps: seq<Step>, s: Step)
    requires Enabled(After(c, steps), s)
    ensures After(c, steps + [s]) == Next(After(c, steps), s)
  {
    assert (steps + [s])[..|steps|] == steps;
  }

  lemma {:induction false} Snapshotted(a: Path)
    ensures After(Client(false, {a}, map[a := WStart], EStart, []), [] + [WriteState] + [SnapshotVNIs] + [SnapshotHops(a.vni)])
         == Client(true, {a}, map[a := WStart], EAnnouncing({}, {a}), [])
  {
    var c := Client(false, {a}, map[a := WStart], EStart, []);
    var c1 := c.(established := true, e := EWritten);
    var c2 := c1.(e := EAnnouncing({a.vni}, {}));
    var c3 := c1.(e := EAnnouncing({}, {a}));
    assert Next(c, WriteState) == c1;
    assert Next(c1, SnapshotVNIs) == c2 by {
      assert (set x | x in c1.announcements :: x.vni) == {a.vni};
    }
    assert Next(c2, SnapshotHops(a.vni)) == c3 by {
      assert (set x | x in c2.announcements && x.vni == a.vni) == {a};
      assert {a.vni} - {a.vni} == {};
    }
    assert After(c, []) == c;
    hide After;
    hide Next;
    AfterOne(c, [], WriteState);
    AfterOne(c, [] + [WriteState], SnapshotVNIs);
    AfterOne(c, [] + [WriteState] + [SnapshotVNIs], SnapshotHops(a.vni));
  }

  /** The harmful interleaving: snapshot of the hops, withdrawal with its REMOVE, then the snapshot's ADD. */
  lemma {:induction false} WithdrawnRouteSurvives(a: Path)
    ensures exists steps :: var r := After(Client(false, {a}, map[a := WStart], EStart, []), steps);
      r.e.EDone? && a in r.withdrawers && r.withdrawers[a].WDone? && a !in r.announcements && Replay(false, r.log, a)
  {
    var c := Client(false, {a}, map[a := WStart], EStart, []);
    var s1 := [] + [WriteState] + [SnapshotVNIs] + [SnapshotHops(a.vni)];
    Snapshotted(a);
    hide After;
    hide Replay;
    AfterOne(c, s1, Unpublish(a));
    AfterOne(c, s1 + [Unpublish(a)], ReadState(a));
    AfterOne(c, s1 + [Unpublish(a)] + [ReadState(a)], SendRemove(a));
    var s2 := s1 + [Unpublish(a)] + [ReadState(a)] + [SendRemove(a)];
    AfterOne(c, s2, SendAdd(a));
    ReplayAppend(false, After(c, s2).log, Update(ADD, a), a);
    AfterOne(c, s2 + [SendAdd(a)], Finish);
    var r := After(c, s2 + [SendAdd(a)] + [Finish]);
    assert r.withdrawers[a].WDone? && a !in r.announcements;
  }
}
