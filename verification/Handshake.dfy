/**
 * The connection handshake of peer.go between a client's outgoing peer and the
 * server's incoming peer, one goroutine step at a time.
 *
 * Each direction of the connection is a bag of messages: the select loop picks
 * any message that has arrived, so every order of delivery across message
 * types (and more) is covered.
 */
module Handshake {
  import opened Types
  import opened Engine

  /** handle() of the client: queue HELLO, then set HELLO_SENT, then loop. */
  datatype ClientPc = CStart | CHelloQueued | CLoop

  /** handle() of the server: the loop, and the points inside processRxHello and processRxKeepalive. */
  datatype ServerPc = SLoop | SGotHello | SHelloQueued | SGotKeepalive

  datatype Conn = Conn(
    clientConfig: nat,
    serverConfig: nat,
    cState: ConnState,
    cPc: ClientPc,
    cInterval: nat,
    keepaliveLoop: bool,
    sState: ConnState,
    sPc: ServerPc,
    sInterval: nat,
    toServer: multiset<Message>,
    toClient: multiset<Message>)

  /** A fresh TCP connection: the server's peer is new, the client's peer keeps its interval. */
  function Opened(clientConfig: nat, serverConfig: nat, interval: nat): Conn {
    Conn(clientConfig, serverConfig, Connecting, CStart, interval, false, Connecting, SLoop, serverConfig, multiset{}, multiset{})
  }

  /** NewMetalBond never keeps an interval of 0. */
  function Configured(interval: nat): nat {
    if interval == 0 then 5 else interval
  }

  // What processRxKeepalive does with a KEEPALIVE, by direction and state.

  datatype Reaction = Establish | Continue | WrongState

  function OnKeepalive(direction: Direction, state: ConnState): Reaction {
    if direction.Incoming? && state.HelloSent? then Establish
    else if direction.Outgoing? && state.HelloReceived? then Establish
    else if state.Established? then Continue
    else WrongState
  }

  datatype Step =
    | ClientQueuesHello
    | ClientSetsHelloSent
    | ClientGetsHello(m: Message)
    | ClientTicks
    | ClientGetsKeepalive
    | ClientSends(m: Message)
    | ClientGetsOther(m: Message)
    | ServerGetsHello(m: Message)
    | ServerQueuesHello
    | ServerSetsHelloSent
    | ServerGetsKeepalive
    | ServerRepliesKeepalive
    | ServerSends(m: Message)
    | ServerGetsOther(m: Message)
    | Reconnect

  predicate Payload(m: Message) {
    m.Subscribe? || m.Unsubscribe? || m.Update?
  }

  /** Client and server send SUBSCRIBE and UPDATE only on an ESTABLISHED peer; UNSUBSCRIBE any time. */
  predicate Enabled(c: Conn, x: Step) {
    match x
    case ClientQueuesHello => c.cPc.CStart?
    case ClientSetsHelloSent => c.cPc.CHelloQueued?
    case ClientGetsHello(m) => c.cPc.CLoop? && m.Hello? && m in c.toClient
    case ClientTicks => c.keepaliveLoop
    case ClientGetsKeepalive => c.cPc.CLoop? && Keepalive in c.toClient
    case ClientSends(m) => ((m.Subscribe? || m.Update?) && c.cState.Established?) || m.Unsubscribe?
    case ClientGetsOther(m) => c.cPc.CLoop? && Payload(m) && m in c.toClient
    case ServerGetsHello(m) => c.sPc.SLoop? && m.Hello? && m in c.toServer
    case ServerQueuesHello => c.sPc.SGotHello?
    case ServerSetsHelloSent => c.sPc.SHelloQueued?
    case ServerGetsKeepalive => c.sPc.SLoop? && Keepalive in c.toServer
    case ServerRepliesKeepalive => c.sPc.SGotKeepalive?
    case ServerSends(m) => m.Update? && c.sState.Established?
    case ServerGetsOther(m) => c.sPc.SLoop? && Payload(m) && m in c.toServer
    case Reconnect => true
  }

  function Next(c: Conn, x: Step): Conn {
    match x
    case ClientQueuesHello => c.(toServer := c.toServer + multiset{Hello(c.cInterval, false)}, cPc := CHelloQueued)
    case ClientSetsHelloSent => c.(cState := HelloSent, cPc := CLoop)
    case ClientGetsHello(m) =>
      if m.Hello?
      then c.(toClient := c.toClient - multiset{m}, cInterval := Min(c.cInterval, m.interval), cState := HelloReceived, keepaliveLoop := true)
      else c
    case ClientTicks => c.(toServer := c.toServer + multiset{Keepalive})
    case ClientGetsKeepalive =>
      c.(toClient := c.toClient - multiset{Keepalive},
         cState := if OnKeepalive(Outgoing, c.cState).Establish? then Established else c.cState)
    case ClientSends(m) => c.(toServer := c.toServer + multiset{m})
    case ClientGetsOther(m) => c.(toClient := c.toClient - multiset{m})
    case ServerGetsHello(m) =>
      if m.Hello?
      then c.(toServer := c.toServer - multiset{m}, sInterval := Min(c.sInterval, m.interval), sState := HelloReceived, sPc := SGotHello)
      else c
    case ServerQueuesHello => c.(toClient := c.toClient + multiset{Hello(c.sInterval, true)}, sPc := SHelloQueued)
    case ServerSetsHelloSent => c.(sState := HelloSent, sPc := SLoop)
    case ServerGetsKeepalive =>
      c.(toServer := c.toServer - multiset{Keepalive},
         sState := if OnKeepalive(Incoming, c.sState).Establish? then Established else c.sState,
         sPc := if OnKeepalive(Incoming, c.sState).WrongState? then c.sPc else SGotKeepalive)
    case ServerRepliesKeepalive => c.(toClient := c.toClient + multiset{Keepalive}, sPc := SLoop)
    case ServerSends(m) => c.(toClient := c.toClient + multiset{m})
    case ServerGetsOther(m) => c.(toServer := c.toServer - multiset{m})
    case Reconnect => Opened(c.clientConfig, c.serverConfig, c.cInterval)
  }

  // The invariant

  ghost predicate AnyHello(bag: multiset<Message>) {
    exists m :: m in bag && m.Hello?
  }

  /** The client's HELLO is still on its way. */
  ghost predicate HelloUnderWay(c: Conn) {
    c.toServer[Hello(c.cInterval, false)] == 1
  }

  ghost predicate Intervals(c: Conn) {
    && c.clientConfig >= 1 && c.serverConfig >= 1
    && c.cInterval in {c.clientConfig, Min(c.clientConfig, c.serverConfig)}
    && (c.sState.Connecting? ==> c.sInterval == c.serverConfig)
    && (!c.sState.Connecting? ==> c.sInterval == Min(c.clientConfig, c.serverConfig))
    && (c.keepaliveLoop ==> c.cInterval == c.sInterval)
    && (forall m :: m in c.toServer && m.Hello? ==> m == Hello(c.cInterval, false))
    && (forall m :: m in c.toClient && m.Hello? ==> m == Hello(c.sInterval, true))
  }

  ghost predicate Phases(c: Conn) {
    // the client
    && (c.cPc.CStart? ==> c.cState.Connecting? && c.sState.Connecting? && !AnyHello(c.toServer))
    && (c.cPc.CHelloQueued? ==> c.cState.Connecting?)
    && (c.cPc.CLoop? ==> c.cState in {HelloSent, HelloReceived, Established})
    && (c.keepaliveLoop <==> c.cState in {HelloReceived, Established})
    // the server
    && c.sState in {Connecting, HelloReceived, HelloSent, Established}
    && (c.sState.Connecting? ==> c.sPc.SLoop? && c.toClient == multiset{} && !c.keepaliveLoop)
    && (c.sState.HelloReceived? <==> c.sPc.SGotHello? || c.sPc.SHelloQueued?)
    && (c.sPc.SGotHello? ==> c.toClient == multiset{} && !c.keepaliveLoop)
    && (c.sPc.SGotKeepalive? ==> c.sState.Established?)
    // a HELLO is sent once in each direction
    && (AnyHello(c.toServer) ==> c.sState.Connecting? && HelloUnderWay(c))
    && (AnyHello(c.toClient) ==> !c.keepaliveLoop && c.toClient[Hello(c.sInterval, true)] == 1)
    // KEEPALIVE comes from a client that has processed HELLO
    && (Keepalive in c.toServer ==> c.keepaliveLoop)
    && (Keepalive in c.toClient ==> c.sState.Established?)
    && (c.sState.Established? ==> c.keepaliveLoop)
    && (c.cState.Established? ==> c.sState.Established?)
    // a SUBSCRIBE comes from an ESTABLISHED client
    && (forall m :: m in c.toServer && m.Subscribe? ==> c.sState.Established?)
  }

  /** Nothing the handshake waits for gets lost. */
  ghost predicate UnderWay(c: Conn) {
    // the client's HELLO, until the server has it
    && (c.sState.Connecting? && !c.cPc.CStart? ==> Hello(c.cInterval, false) in c.toServer)
    // the server's HELLO, until the client has it
    && ((c.sPc.SHelloQueued? || c.sState.HelloSent?) && !c.keepaliveLoop ==> Hello(c.sInterval, true) in c.toClient)
  }

  ghost predicate Safe(c: Conn) {
    Intervals(c) && Phases(c)
  }

  ghost predicate Inv(c: Conn) {
    Safe(c) && UnderWay(c)
  }

  lemma OpenedInv(clientConfig: nat, serverConfig: nat, interval: nat)
    requires clientConfig >= 1 && serverConfig >= 1
    requires interval in {clientConfig, Min(clientConfig, serverConfig)}
    ensures Inv(Opened(clientConfig, serverConfig, interval))
  {
  }

  lemma {:induction false} AddedHellos(bag: multiset<Message>, m: Message)
    ensures AnyHello(bag + multiset{m}) <==> AnyHello(bag) || m.Hello?
  {
    if AnyHello(bag) {
      var h :| h in bag && h.Hello?;
      assert h in bag + multiset{m};
    }
    assert m in bag + multiset{m};
  }

  lemma {:induction false} RemovedHellos(bag: multiset<Message>, m: Message)
    ensures AnyHello(bag - multiset{m}) ==> AnyHello(bag)
    ensures !m.Hello? ==> forall h: Message :: h.Hello? ==> (bag - multiset{m})[h] == bag[h]
    ensures m.Hello? && bag[m] == 1 && (forall h :: h in bag && h.Hello? ==> h == m) ==> !AnyHello(bag - multiset{m})
  {
    if AnyHello(bag - multiset{m}) {
      var h :| h in bag - multiset{m} && h.Hello?;
      assert h in bag;
    }
  }

  lemma {:induction false} ClientGetsHelloStep(c: Conn, m: Message)
    requires Safe(c) && Enabled(c, ClientGetsHello(m))
    ensures Safe(Next(c, ClientGetsHello(m)))
  {
    RemovedHellos(c.toClient, m);
  }

  lemma {:induction false} ClientStep(c: Conn, x: Step)
    requires Safe(c) && Enabled(c, x)
    requires x.ClientQueuesHello? || x.ClientSetsHelloSent? || x.ClientGetsHello? || x.ClientTicks? ||
             x.ClientGetsKeepalive? || x.ClientSends? || x.ClientGetsOther?
    ensures Safe(Next(c, x))
  {
    match x
    case ClientQueuesHello => AddedHellos(c.toServer, Hello(c.cInterval, false));
    case ClientGetsHello(m) => ClientGetsHelloStep(c, m);
    case ClientTicks => AddedHellos(c.toServer, Keepalive);
    case ClientGetsKeepalive => RemovedHellos(c.toClient, Keepalive);
    case ClientSends(m) => AddedHellos(c.toServer, m);
    case ClientGetsOther(m) => RemovedHellos(c.toClient, m);
    case _ =>
  }

  lemma {:induction false} ServerGetsHelloStep(c: Conn, m: Message)
    requires Safe(c) && Enabled(c, ServerGetsHello(m))
    ensures Safe(Next(c, ServerGetsHello(m)))
  {
    RemovedHellos(c.toServer, m);
  }

  lemma {:induction false} ServerQueuesHelloStep(c: Conn)
    requires Safe(c) && Enabled(c, ServerQueuesHello)
    ensures Safe(Next(c, ServerQueuesHello))
  {
    AddedHellos(c.toClient, Hello(c.sInterval, true));
    assert !AnyHello(c.toClient);
  }

  lemma {:induction false} ServerStep(c: Conn, x: Step)
    requires Safe(c) && Enabled(c, x)
    requires x.ServerSetsHelloSent? || x.ServerGetsKeepalive? || x.ServerRepliesKeepalive? || x.ServerSends? || x.ServerGetsOther?
    ensures Safe(Next(c, x))
  {
    match x
    case ServerGetsKeepalive => RemovedHellos(c.toServer, Keepalive);
    case ServerRepliesKeepalive => AddedHellos(c.toClient, Keepalive);
    case ServerSends(m) => AddedHellos(c.toClient, m);
    case ServerGetsOther(m) => RemovedHellos(c.toServer, m);
    case _ =>
  }

  lemma {:induction false} SafeStep(c: Conn, x: Step)
    requires Safe(c) && Enabled(c, x) && !x.Reconnect?
    ensures Safe(Next(c, x))
  {
    hide Safe;
    hide Enabled;
    hide Next;
    match x
    case ClientGetsHello(m) => ClientGetsHelloStep(c, m);
    case ServerGetsHello(m) => ServerGetsHelloStep(c, m);
    case ServerQueuesHello => ServerQueuesHelloStep(c);
    case ServerSetsHelloSent => ServerStep(c, x);
    case ServerGetsKeepalive => ServerStep(c, x);
    case ServerRepliesKeepalive => ServerStep(c, x);
    case ServerSends(_) => ServerStep(c, x);
    case ServerGetsOther(_) => ServerStep(c, x);
    case _ => ClientStep(c, x);
  }

  predicate OfServer(x: Step) {
    x.ServerGetsHello? || x.ServerQueuesHello? || x.ServerSetsHelloSent? || x.ServerGetsKeepalive? ||
    x.ServerRepliesKeepalive? || x.ServerSends? || x.ServerGetsOther?
  }

  lemma {:induction false} UnderWayClientStep(c: Conn, x: Step)
    requires Inv(c) && Enabled(c, x) && !x.Reconnect? && !OfServer(x)
    ensures UnderWay(Next(c, x))
  {
  }

  lemma {:induction false} UnderWayServerStep(c: Conn, x: Step)
    requires Inv(c) && Enabled(c, x) && OfServer(x)
    ensures UnderWay(Next(c, x))
  {
  }

  lemma {:induction false} InvStep(c: Conn, x: Step)
    requires Inv(c) && Enabled(c, x)
    ensures Inv(Next(c, x))
    ensures Next(c, x).clientConfig == c.clientConfig && Next(c, x).serverConfig == c.serverConfig
  {
    if x.Reconnect? {
      OpenedInv(c.clientConfig, c.serverConfig, c.cInterval);
    } else {
      hide Safe;
      hide UnderWay;
      SafeStep(c, x);
      if OfServer(x) {
        UnderWayServerStep(c, x);
      } else {
        UnderWayClientStep(c, x);
      }
    }
  }

  ghost function After(c: Conn, steps: seq<Step>): Conn
    decreases |steps|
  {
    if steps == [] then c
    else
      var mid := After(c, steps[..|steps| - 1]);
      if Enabled(mid, steps[|steps| - 1]) then Next(mid, steps[|steps| - 1]) else mid
  }

  lemma {:induction false} InvInEveryRun(client: nat, server: nat, steps: seq<Step>)
    ensures var r := After(Opened(Configured(client), Configured(server), Configured(client)), steps);
      Inv(r) && r.clientConfig == Configured(client) && r.serverConfig == Configured(server)
  {
    hide Inv;
    hide Enabled;
    var c := Opened(Configured(client), Configured(server), Configured(client));
    if steps == [] {
      OpenedInv(Configured(client), Configured(server), Configured(client));
    } else {
      InvInEveryRun(client, server, steps[..|steps| - 1]);
      var mid, x := After(c, steps[..|steps| - 1]), steps[|steps| - 1];
      if Enabled(mid, x) {
        InvStep(mid, x);
      }
    }
  }

  /**
   * In every run, over any number of reconnects: an ESTABLISHED client faces an
   * ESTABLISHED server, an ESTABLISHED server a client that has processed its
   * HELLO; no KEEPALIVE is ever processed in a wrong state.
   */
  lemma {:induction false} EstablishmentIsAgreed(client: nat, server: nat, steps: seq<Step>)
    ensures var r := After(Opened(Configured(client), Configured(server), Configured(client)), steps);
      && (r.cState.Established? ==> r.sState.Established?)
      && (r.sState.Established? ==> r.cState in {HelloReceived, Established})
      && (Enabled(r, ClientGetsKeepalive) ==> !OnKeepalive(Outgoing, r.cState).WrongState?)
      && (Enabled(r, ServerGetsKeepalive) ==> !OnKeepalive(Incoming, r.sState).WrongState?)
  {
    InvInEveryRun(client, server, steps);
  }

  lemma {:induction false} SubscribeOnlyWhenEstablished(client: nat, server: nat, steps: seq<Step>, m: Message)
    requires m.Subscribe?
    ensures var r := After(Opened(Configured(client), Configured(server), Configured(client)), steps);
      Enabled(r, ServerGetsOther(m)) ==> r.sState.Established?
  {
    InvInEveryRun(client, server, steps);
  }

  /**
   * Once the client has processed the server's HELLO, both ends use the lower
   * of the two configured intervals, in the first connection as after any
   * number of reconnects. No HELLO carries an interval below 1.
   */
  lemma {:induction false} IntervalIsTheMinimum(client: nat, server: nat, steps: seq<Step>)
    ensures var r := After(Opened(Configured(client), Configured(server), Configured(client)), steps);
      && (r.keepaliveLoop ==> r.cInterval == r.sInterval == Min(Configured(client), Configured(server)))
      && (forall m :: (m in r.toServer || m in r.toClient) && m.Hello? ==> m.interval >= 1)
  {
    InvInEveryRun(client, server, steps);
  }

  // The handshake can always be brought to its end

  predicate BothEstablished(c: Conn) {
    c.cState == Established && c.sState == Established
  }

  /** The next step towards establishment. */
  function Toward(c: Conn): Step {
    if c.cPc.CStart? then ClientQueuesHello
    else if c.cPc.CHelloQueued? then ClientSetsHelloSent
    else if c.sPc.SGotHello? then ServerQueuesHello
    else if c.sPc.SHelloQueued? then ServerSetsHelloSent
    else if c.sPc.SGotKeepalive? then ServerRepliesKeepalive
    else if c.sState.Connecting? then ServerGetsHello(Hello(c.cInterval, false))
    else if c.cState.HelloSent? then ClientGetsHello(Hello(c.sInterval, true))
    else if c.sState.Established? && Keepalive in c.toClient then ClientGetsKeepalive
    else if Keepalive in c.toServer then ServerGetsKeepalive
    else ClientTicks
  }

  /** How far away the HELLOs and the KEEPALIVE are. */
  function Hellos(c: Conn): nat {
    (if c.cPc.CStart? then 2 else if c.cPc.CHelloQueued? then 1 else 0)
    + (if c.sState.Connecting? then 20 else if c.sPc.SGotHello? then 19 else if c.sPc.SHelloQueued? then 18
       else if c.sState.HelloSent? then 10 else 0)
    + (if c.cState.Connecting? || c.cState.HelloSent? then 5 else 0)
  }

  function Keepalives(c: Conn): nat {
    if c.sPc.SGotKeepalive? then 1
    else if c.sState.Established? && Keepalive in c.toClient then 0
    else if Keepalive in c.toServer then 2
    else 3
  }

  function Distance(c: Conn): nat {
    if BothEstablished(c) then 0 else 1 + Hellos(c) + Keepalives(c)
  }

  lemma {:induction false} TowardIsEnabled(c: Conn)
    requires Inv(c) && !BothEstablished(c)
    ensures Enabled(c, Toward(c)) && !Toward(c).Reconnect?
  {
  }

  predicate OfKeepalives(x: Step) {
    x.ClientTicks? || x.ClientGetsKeepalive? || x.ServerGetsKeepalive? || x.ServerRepliesKeepalive?
  }

  lemma {:induction false} HellosGoOn(c: Conn)
    requires Inv(c) && !BothEstablished(c) && !OfKeepalives(Toward(c))
    ensures Hellos(Next(c, Toward(c))) < Hellos(c)
  {
    hide Intervals;
    hide UnderWay;
  }

  lemma {:induction false} HellosStay(c: Conn)
    requires Inv(c) && !BothEstablished(c) && OfKeepalives(Toward(c))
    ensures if Toward(c).ClientGetsKeepalive? then BothEstablished(Next(c, Toward(c))) else Hellos(Next(c, Toward(c))) <= Hellos(c)
  {
    hide Intervals;
    hide UnderWay;
  }

  lemma {:induction false} KeepalivesGoOn(c: Conn)
    requires Inv(c) && !BothEstablished(c) && OfKeepalives(Toward(c)) && !Toward(c).ClientGetsKeepalive?
    ensures Keepalives(Next(c, Toward(c))) < Keepalives(c)
  {
    hide Intervals;
    hide UnderWay;
  }

  lemma {:induction false} KeepalivesStay(c: Conn)
    requires Inv(c) && !BothEstablished(c) && !OfKeepalives(Toward(c))
    ensures Keepalives(Next(c, Toward(c))) <= Keepalives(c)
  {
    hide Intervals;
    hide UnderWay;
  }

  lemma {:induction false} TowardIsCloser(c: Conn)
    requires Inv(c) && !BothEstablished(c)
    ensures Distance(Next(c, Toward(c))) < Distance(c)
  {
    hide Hellos;
    hide Keepalives;
    hide Next;
    hide Toward;
    hide Inv;
    if OfKeepalives(Toward(c)) {
      HellosStay(c);
      if !Toward(c).ClientGetsKeepalive? {
        KeepalivesGoOn(c);
      }
    } else {
      HellosGoOn(c);
      KeepalivesStay(c);
    }
  }

  lemma {:induction false} AfterTogether(c: Conn, steps: seq<Step>, more: seq<Step>)
    ensures After(c, steps + more) == After(After(c, steps), more)
    decreases |more|
  {
    if more == [] {
      assert steps + more == steps;
    } else {
      var k := |more| - 1;
      AfterTogether(c, steps, more[..k]);
      assert (steps + more)[..|steps + more| - 1] == steps + more[..k];
    }
  }

  lemma {:induction false} EstablishesFrom(c: Conn) returns (more: seq<Step>)
    requires Inv(c)
    ensures BothEstablished(After(c, more)) && forall x :: x in more ==> !x.Reconnect?
    decreases Distance(c)
  {
    if BothEstablished(c) {
      more := [];
    } else {
      TowardIsEnabled(c);
      TowardIsCloser(c);
      var x := Toward(c);
      InvStep(c, x);
      var rest := EstablishesFrom(Next(c, x));
      assert After(c, []) == c;
      assert [x][..0] == [];
      assert After(c, [x]) == Next(c, x);
      AfterTogether(c, [x], rest);
      more := [x] + rest;
    }
  }

  /** Some run without a reconnect leads from `c` to a state with both ends ESTABLISHED. */
  ghost predicate CanEstablish(c: Conn) {
    exists more: seq<Step> :: BothEstablished(After(c, more)) && (forall x :: x in more ==> !x.Reconnect?)
  }

  /**
   * From every state of every run, reconnects included, the handshake can be
   * brought to its end without another reconnect: both ends become ESTABLISHED.
   */
  lemma {:induction false} EstablishmentIsPossible(client: nat, server: nat, steps: seq<Step>)
    ensures CanEstablish(After(Opened(Configured(client), Configured(server), Configured(client)), steps))
  {
    InvInEveryRun(client, server, steps);
    var more := EstablishesFrom(After(Opened(Configured(client), Configured(server), Configured(client)), steps));
  }

  /** Some run without a reconnect leads from `c` to a state in which the server, ESTABLISHED, can process `m`. */
  ghost predicate CanBeHeard(c: Conn, m: Message) {
    exists more: seq<Step> ::
      && (forall x :: x in more ==> !x.Reconnect?)
      && After(c, more).sState.Established? && Enabled(After(c, more), ServerGetsOther(m))
  }

  lemma {:induction false} AfterOne(c: Conn, x: Step)
    requires Enabled(c, x)
    ensures After(c, [x]) == Next(c, x)
  {
    assert After(c, []) == c;
    assert [x][..0] == [];
  }

  /** What an ESTABLISHED client sends, the server can come to process as an ESTABLISHED peer. */
  lemma {:induction false} EstablishedClientIsHeard(client: nat, server: nat, steps: seq<Step>, m: Message)
    requires m.Subscribe? || m.Update?
    requires After(Opened(Configured(client), Configured(server), Configured(client)), steps).cState.Established?
    ensures CanBeHeard(After(Opened(Configured(client), Configured(server), Configured(client)), steps), m)
  {
    InvInEveryRun(client, server, steps);
    var c := After(Opened(Configured(client), Configured(server), Configured(client)), steps);
    hide After;
    assert c.sState.Established? && (c.sPc.SLoop? || c.sPc.SGotKeepalive?);
    var send := ClientSends(m);
    AfterOne(c, send);
    if c.sPc.SLoop? {
      var more := [send];
      assert Enabled(After(c, more), ServerGetsOther(m));
    } else {
      AfterOne(Next(c, send), ServerRepliesKeepalive);
      AfterTogether(c, [send], [ServerRepliesKeepalive]);
      var more := [send] + [ServerRepliesKeepalive];
      assert Enabled(After(c, more), ServerGetsOther(m));
    }
  }
}
