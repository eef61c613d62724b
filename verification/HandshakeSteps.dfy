/**
 * A proxied handshake that succeeds, step by step: what each of the three
 * parties files, sends and tells its upper layer, field by field.
 */
module HandshakeSteps {
  import opened Collections
  import opened Ids
  import opened ConnectTypes
  import opened ConnectSpec
  import opened Handshake
  import opened HandshakeRuns

  /**
   * Source, proxy and destination, and the addresses in use: `local` is the one
   * the source gives, `seen` where the proxy sees the source, `known` the one of
   * the destination in the routing table of the proxy, `away` where the
   * destination sees the proxy, and `given` what the destination answers.
   */
  datatype Plan = Plan(s: NodeId, p: BdId, d: NodeId, mode: bv32, local: Addr, seen: Addr, known: Addr, away: Addr,
                       given: Addr)
  {
    function Key(): Tuple {
      Tuple(s, p.id, d)
    }

    predicate Valid() {
      s != d && p.id != s && p.id != d && (mode == 2 || mode == 4)
    }

    /** The address to connect to the source: what it gave, or else where it was seen. */
    function Source(): BdId {
      BdId(s, if local.ip == ZERO_IP then seen else local)
    }

    function Destination(): BdId {
      BdId(d, if given.ip == ZERO_IP then known else given)
    }
  }

  function Max(a: int, b: int): int {
    if a < b then b else a
  }

  /** Nothing is in the way of a new connection under `k`. */
  ghost predicate Free(n: Node, k: Tuple, mode: bv32) {
    && n.allowed & mode != 0 && k !in n.conns
    && forall l :: l in n.conns ==> !(l.src == k.dest && l.dest == k.src)
  }

  // ----------------------------------------------------------- 1: the source

  function Asking(x: Plan, left: int): ConnectMsg {
    ConnectMsg(MsgRequest, BdId(x.s, x.local), BdId(x.d, NO_ADDR), x.mode, left, 0)
  }

  function Asked(x: Plan, left: int, now: int): Connection {
    Connection(WaitingStart, now, BdId(x.s, NO_ADDR), BdId(x.d, NO_ADDR), x.p, StartPoint, x.mode,
               BdId(x.s, x.local), BdId(x.d, NO_ADDR), 0, left, now, 0, 0, false, false, 0)
  }

  /** The request takes its first proxy off the list and asks it for a connection, with what is left of its delay. */
  lemma SourceAsks(x: Plan, n: Node, now: int)
    requires x.Valid() && n.own == x.s && x.d in n.reqs && Free(n, x.Key(), x.mode)
    requires var r := n.reqs[x.d];
             && r.state == Ready && r.target == x.d && r.mode == x.mode && r.localAddr == x.local
             && r.goodProxies != [] && r.goodProxies[0].id == x.p
    ensures var r, m := n.reqs[x.d], TickRequest(n, x.d, now).0;
            var left := Max(r.delay - (now - r.requestTS), 0);
            && m.reqs == n.reqs[x.d := r.(goodProxies := r.goodProxies[1..], currentAttempt := x.p, state := InProgress,
                                          currentSrcType := r.goodProxies[0].srcType, stateTS := now)]
            && m.conns == n.conns[x.Key() := Asked(x, left, now)]
            && m.sent == n.sent + [Packet(x.s, x.p, Asking(x, left))]
            && m.calls == n.calls + [Callback(BdId(x.s, x.local), x.p, BdId(x.d, NO_ADDR), x.mode, StartPoint, 0,
                                              CbRequest, 0)]
  {
  }

  // ------------------------------------------------------------ 2, 3: the proxy

  function Filed(x: Plan, left: int, now: int): Connection {
    Connection(WaitingAuth, now, BdId(x.s, x.seen), BdId(x.d, x.known), BdId(x.p.id, NO_ADDR), MidPoint, x.mode,
               BdId(x.s, x.local), BdId(x.d, NO_ADDR), 0, left, now, 0, 0, false, false, 0)
  }

  function Passing(x: Plan): Packet {
    Packet(x.p.id, BdId(x.d, x.known),
           ConnectMsg(MsgRequest, BdId(x.s, x.local), BdId(x.d, NO_ADDR), x.mode, 0, 0))
  }

  function Upcall(c: Connection, kind: CbKind): Callback {
    Callback(c.srcId, c.proxyId, c.destId, c.mode, c.point, 0, kind, 0)
  }

  /** A proxy files the connection and asks the upper layer, or passes the request on at once. */
  lemma ProxyFiles(x: Plan, n: Node, left: int, now: int)
    requires x.Valid() && n.own == x.p.id && Free(n, x.Key(), x.mode)
    ensures var m := Receive(n, BdId(x.s, x.seen), Asking(x, left), Some(BdId(x.d, x.known)), now);
            var c := Filed(x, left, now);
            if x.mode == 2 && n.autoProxy then
              m == n.(conns := n.conns[x.Key() := c.(state := WaitingReply)], sent := n.sent + [Passing(x)])
            else m == n.(conns := n.conns[x.Key() := c], calls := n.calls + [Upcall(c, CbAuth)])
  {
  }

  /** When the upper layer agrees, the request goes on to the destination. */
  lemma ProxyAgrees(x: Plan, n: Node, left: int, filed: int, bandwidth: int, now: int)
    requires x.Valid() && n.own == x.p.id && x.Key() in n.conns && n.conns[x.Key()] == Filed(x, left, filed)
    ensures var m := AuthOk(n, BdId(x.s, NO_ADDR), x.p, BdId(x.d, NO_ADDR), x.mode, MidPoint, bandwidth, 0, now);
            var c := Filed(x, left, filed).(state := WaitingReply, lastEvent := now, bandwidth := bandwidth);
            m == n.(conns := n.conns[x.Key() := c], sent := n.sent + [Passing(x)])
  {
  }

  // ------------------------------------------------------- 4, 5: the destination

  function Offered(x: Plan, now: int): Connection {
    Connection(WaitingAuth, now, BdId(x.s, NO_ADDR), BdId(x.d, NO_ADDR), BdId(x.p.id, x.away), EndPoint, x.mode,
               BdId(x.s, NO_ADDR), BdId(x.d, NO_ADDR), 0, 0, now, 0, 0, false, false, 0)
  }

  /** The destination files the connection and asks its upper layer. */
  lemma DestinationFiles(x: Plan, n: Node, found: Option<BdId>, now: int)
    requires x.Valid() && n.own == x.d && Free(n, x.Key(), x.mode)
    ensures var m, c := Receive(n, BdId(x.p.id, x.away), Passing(x).msg, found, now), Offered(x, now);
            m == n.(conns := n.conns[x.Key() := c], calls := n.calls + [Upcall(c, CbAuth)])
  {
  }

  function Accepted(x: Plan, filed: int, delay: int, now: int): Connection {
    Offered(x, filed).(state := WaitingStart, lastEvent := now, maxDelay := delay + (now - filed),
                       destConnAddr := BdId(x.d, x.given), destAck := true)
  }

  function Answer(x: Plan, delay: int): Packet {
    Packet(x.d, BdId(x.p.id, x.away),
           ConnectMsg(MsgReply, BdId(x.s, NO_ADDR), BdId(x.d, x.given), x.mode, delay, 0))
  }

  /** When it agrees, its answer with its address and the time it needs goes to the proxy. */
  lemma DestinationAgrees(x: Plan, n: Node, filed: int, bandwidth: int, delay: int, now: int)
    requires x.Valid() && n.own == x.d && x.Key() in n.conns && n.conns[x.Key()] == Offered(x, filed)
    ensures var m := AuthOk(n, BdId(x.s, NO_ADDR), x.p, BdId(x.d, x.given), x.mode, EndPoint, bandwidth, delay, now);
            var c := Accepted(x, filed, delay, now);
            m == n.(conns := n.conns[x.Key() := c], sent := n.sent + [Answer(x, delay + (now - filed))])
  {
  }

  // ------------------------------------------------------- 6, 7: the proxy again

  function Waiting(x: Plan, left: int, filed: int, agreed: int, bandwidth: int): Connection {
    Filed(x, left, filed).(state := WaitingReply, lastEvent := agreed, bandwidth := bandwidth)
  }

  /** The connection as the proxy has it when both sides are to start. */
  function Prepared(x: Plan, left: int, filed: int, bandwidth: int, delay: int, now: int): Connection {
    Filed(x, left, filed).(state := WaitingAck, lastEvent := now, bandwidth := bandwidth,
                           maxDelay := Max(left, delay + (now - filed)),
                           srcConnAddr := x.Source(), destConnAddr := x.Destination())
  }

  /** With the answer the proxy knows both addresses, and the larger of the two delays. */
  lemma ProxyPrepares(x: Plan, n: Node, left: int, filed: int, agreed: int, bandwidth: int, delay: int,
                      addr: Addr, found: Option<BdId>, now: int)
    requires x.Valid() && n.own == x.p.id
    requires x.Key() in n.conns && n.conns[x.Key()] == Waiting(x, left, filed, agreed, bandwidth)
    ensures var m := Receive(n, BdId(x.d, addr), Answer(x, delay).msg, found, now);
            var c := Prepared(x, left, filed, bandwidth, delay, now);
            m == n.(conns := n.conns[x.Key() := c],
                    calls := if x.mode == 2 && n.autoProxy then n.calls else n.calls + [Upcall(c, CbPending)])
  {
  }

  /** What a START tells: the bandwidth of a relay, or else the delay that is left. */
  function Told(c: Connection, now: int): int {
    if c.mode == 4 then c.bandwidth else Max(c.maxDelay - (now - c.connectionStartTS), 0)
  }

  function Starting(x: Plan, told: int): ConnectMsg {
    ConnectMsg(MsgStart, x.Source(), x.Destination(), x.mode, told, 0)
  }

  /** In its next round the proxy tells both sides to start, each with the addresses of both. */
  lemma ProxyStarts(x: Plan, n: Node, left: int, filed: int, bandwidth: int, delay: int, ready: int, now: int)
    requires x.Valid() && n.own == x.p.id && now - ready <= 20 && now > 3
    requires x.Key() in n.conns && n.conns[x.Key()] == Prepared(x, left, filed, bandwidth, delay, ready)
    ensures var c := Prepared(x, left, filed, bandwidth, delay, ready);
            var start := Starting(x, Told(c, now));
            TickConn(n, x.Key(), now)
            == (n.(conns := n.conns[x.Key() := c.(lastStart := now, retryCount := 1)],
                   sent := n.sent + [Packet(x.p.id, BdId(x.s, x.seen), start),
                                     Packet(x.p.id, BdId(x.d, x.known), start)]), false)
  {
    var c := Prepared(x, left, filed, bandwidth, delay, ready);
    var start := Starting(x, Told(c, now));
    var a, b := Packet(x.p.id, BdId(x.s, x.seen), start), Packet(x.p.id, BdId(x.d, x.known), start);
    assert StartTo(n.own, c, c.srcId, c.srcAck, now) == [a] && StartTo(n.own, c, c.destId, c.destAck, now) == [b];
    assert [a] + [b] == [a, b];
  }

  // ------------------------------------------------------------ 8, 9: both ends

  function Or(b: BdId, fallback: Addr): BdId {
    if b.addr.ip == ZERO_IP then BdId(b.id, fallback) else b
  }

  /** An entry of either end after START: the addresses to use, and bandwidth or delay as told. */
  function Started(x: Plan, c: Connection, told: int, now: int): Connection {
    c.(state := Completed, lastEvent := now, completedTS := now,
       srcConnAddr := Or(x.Source(), NO_ADDR), destConnAddr := Or(x.Destination(), NO_ADDR),
       bandwidth := if x.mode == 4 then told else 0,
       maxDelay := Max(c.maxDelay, (if x.mode == 4 then 0 else told) + (now - c.connectionStartTS)))
  }

  lemma CompletedIsStarted(x: Plan, c: Connection, told: int, now: int)
    requires c.srcId.addr == NO_ADDR && c.destId.addr == NO_ADDR && c.mode == x.mode
    ensures CompleteConnection(c, x.Source(), x.Destination(), if c.mode == MODE_RELAY then told else 0,
                               if c.mode == MODE_RELAY then 0 else told, now)
            == Started(x, c, told, now)
    ensures var e := Started(x, c, told, now);
            e.point == c.point && e.mode == c.mode && e.srcConnAddr.id == x.s && e.destConnAddr.id == x.d
  {
  }

  function Thanks(x: Plan, own: NodeId, addr: Addr): Packet {
    Packet(own, BdId(x.p.id, addr), ConnectMsg(MsgAck, BdId(x.s, NO_ADDR), BdId(x.d, NO_ADDR), x.mode, 0, 0))
  }

  /** The upcall by which an end learns where to connect to. */
  function Made(c: Connection, told: int): Callback {
    Callback(c.srcConnAddr, c.proxyId, c.destConnAddr, c.mode, c.point, told, CbStart, 0)
  }

  /** The source thanks the proxy, has the connection completed, and its request and upper layer know. */
  lemma SourceStarts(x: Plan, n: Node, left: int, asked: int, told: int, addr: Addr, found: Option<BdId>, now: int)
    requires x.Valid() && n.own == x.s && x.d in n.reqs
    requires x.Key() in n.conns && n.conns[x.Key()] == Asked(x, left, asked)
    ensures var m, c := Receive(n, BdId(x.p.id, addr), Starting(x, told), found, now), Asked(x, left, asked);
            var e := Started(x, c, told, now);
            && m.conns == n.conns[x.Key() := e]
            && m.reqs == n.reqs[x.d := n.reqs[x.d].(state := ExtConnect, stateTS := now)]
            && m.sent == n.sent + [Thanks(x, x.s, addr)] && m.calls == n.calls + [Made(e, told)]
  {
    hide FailRequest, RecvRequest, RecvReply, RecvAck, CompleteConnection, Started;
    CompletedIsStarted(x, n.conns[x.Key()], told, now);
  }

  /** So does the destination; a request of its own for the source is served by the same connection. */
  lemma DestinationStarts(x: Plan, n: Node, filed: int, delay: int, agreed: int, told: int, addr: Addr,
                          found: Option<BdId>, now: int)
    requires x.Valid() && n.own == x.d
    requires x.Key() in n.conns && n.conns[x.Key()] == Accepted(x, filed, delay, agreed)
    ensures var m := Receive(n, BdId(x.p.id, addr), Starting(x, told), found, now);
            var e := Started(x, Accepted(x, filed, delay, agreed), told, now);
            && m.conns == n.conns[x.Key() := e]
            && m.reqs == (if x.s in n.reqs then n.reqs[x.s := n.reqs[x.s].(state := ExtConnect, stateTS := now)]
                          else n.reqs)
            && m.sent == n.sent + [Thanks(x, x.d, addr)] && m.calls == n.calls + [Made(e, told)]
  {
    hide FailRequest, RecvRequest, RecvReply, RecvAck, CompleteConnection, Started;
    CompletedIsStarted(x, n.conns[x.Key()], told, now);
  }

  /** A START that comes again is acknowledged again and changes nothing, at either end and in every mode. */
  lemma StartAgain(n: Node, id: BdId, msg: ConnectMsg, found: Option<BdId>, now: int)
    requires msg.kind == MsgStart
    requires var k := KeyBySender(n.own, id, msg.src, msg.dest); k in n.conns && n.conns[k].state == Completed
    ensures var m, c := Receive(n, id, msg, found, now), n.conns[KeyBySender(n.own, id, msg.src, msg.dest)];
            m == n.(sent := n.sent + [Packet(n.own, id, ConnectMsg(MsgAck, c.srcId, c.destId, msg.mode, 0, 0))])
  {
    hide CompleteConnection, CallbackRequest;
  }

  // --------------------------------------------------------- 10: acknowledgements

  /** The proxy notes who has thanked it; when both have, its work is done. */
  lemma ProxyHears(x: Plan, n: Node, own: NodeId, addr: Addr, seen: Addr, found: Option<BdId>, now: int)
    requires x.Valid() && n.own == x.p.id && (own == x.s || own == x.d) && x.Key() in n.conns
    requires var c := n.conns[x.Key()]; c.state == WaitingAck && c.point == MidPoint && c.mode == x.mode
    ensures var c, m := n.conns[x.Key()], Receive(n, BdId(own, seen), Thanks(x, own, addr).msg, found, now);
            var e := if own == x.s then c.(srcAck := true) else c.(destAck := true);
            if e.srcAck && e.destAck then
              m == n.(conns := n.conns - {x.Key()},
                      calls := if x.mode == 2 && n.autoProxy then n.calls else n.calls + [Upcall(c, CbProxy)])
            else m == n.(conns := n.conns[x.Key() := e])
  {
  }

  /** A START for nothing, or for a connection that does not wait for it, is not even answered. */
  lemma StartIgnored(n: Node, id: BdId, msg: ConnectMsg, found: Option<BdId>, now: int)
    requires msg.kind == MsgStart
    requires var k := Filing(n.own, id.id, msg.src.id, msg.dest.id);
             k in n.conns ==> n.conns[k].state in {WaitingAuth, WaitingReply, WaitingAck}
    ensures Receive(n, id, msg, found, now) == n
  {
  }

  /** Nor is an agreement of the upper layer to what does not wait for one. */
  lemma AgreementIgnored(n: Node, src: BdId, proxy: BdId, dest: BdId, mode: bv32, loc: Point, bandwidth: int,
                         delay: int, now: int)
    requires var k := Tuple(src.id, proxy.id, dest.id); k in n.conns ==> n.conns[k].state != WaitingAuth
    ensures AuthOk(n, src, proxy, dest, mode, loc, bandwidth, delay, now) == n
  {
  }

  /** Waiting for acknowledgements, and not the one who is to send them. */
  predicate Expects(c: Connection) {
    c.point != StartPoint && c.state == WaitingAck
  }

  /** An acknowledgement counts for the side it comes from, and only where it is expected; the second ends the entry. */
  lemma AckExactly(n: Node, id: BdId, msg: ConnectMsg, found: Option<BdId>, now: int)
    requires msg.kind == MsgAck
    ensures var m, k := Receive(n, id, msg, found, now), Filing(n.own, id.id, msg.src.id, msg.dest.id);
            if k !in n.conns || !Expects(n.conns[k]) then m == n
            else
              var c := n.conns[k];
              var src := c.srcAck || id.id == msg.src.id;
              var dest := c.destAck || (id.id == msg.dest.id && id.id != msg.src.id);
              if src && dest then m.conns == n.conns - {k} && m.sent == n.sent
              else m == n.(conns := n.conns[k := c.(srcAck := src, destAck := dest)])
  {
    hide CallbackRequest, Acknowledge;
    var k := Filing(n.own, id.id, msg.src.id, msg.dest.id);
    assert KeyBySender(n.own, id, msg.src, msg.dest) == k;
    if k in n.conns && Expects(n.conns[k]) {
      var c := n.conns[k];
      AcknowledgeExactly(c, id.id, msg.src.id, msg.dest.id);
      var e := Acknowledge(c, id.id, msg.src.id, msg.dest.id);
      CallbackKeepsTable(n, Callback(e.srcConnAddr, e.proxyId, e.destId, e.mode, e.point, 0, CbStart, 0), now);
    }
  }

  lemma AcknowledgeExactly(c: Connection, sender: NodeId, src: NodeId, dest: NodeId)
    ensures Acknowledge(c, sender, src, dest)
            == c.(srcAck := c.srcAck || sender == src, destAck := c.destAck || (sender == dest && sender != src))
  {
  }

  // -------------------------------------------------------- requests not taken up

  /** The kind of the error and the point where it arose, as a status tells them. */
  predicate Says(status: bv32, kind: bv32, point: Point) {
    && status & 0xffff == kind
    && status & 0xff_0000 == match point
                             case StartPoint => 0x1_0000 case MidPoint => 0x2_0000
                             case EndPoint => 0x4_0000 case UnknownPoint => 0
  }

  /** Nothing happens but that the sender is told why its request is not taken up. */
  ghost predicate Objects(n: Node, m: Node, id: BdId, src: BdId, dest: BdId, mode: bv32, kind: bv32, point: Point) {
    && m.conns == n.conns && m.reqs == n.reqs
    && exists status :: m.sent == n.sent + [Packet(n.own, id, ConnectMsg(MsgReply, src, dest, mode, 0, status))]
                        && Says(status, kind, point)
  }

  predicate Opposed(n: Node, src: NodeId, dest: NodeId) {
    exists l :: l in n.conns && l.src == dest && l.dest == src
  }

  /** Where a node stands in a connection between these ends. */
  function Place(own: NodeId, src: NodeId, dest: NodeId): Point {
    if own == src then StartPoint else if own == dest then EndPoint else MidPoint
  }

  /** The key of a connection: the proxy is the node itself, or else the one it heard from. */
  function Filing(own: NodeId, sender: NodeId, src: NodeId, dest: NodeId): Tuple {
    Tuple(src, if own == src || own == dest then sender else own, dest)
  }

  lemma CodeIs(kind: bv32, point: Point)
    requires kind == 5 || kind == 7 || kind == 10
    ensures Says(CreateErrorCode(0, kind, point), kind, point)
  {
  }

  lemma Objected(n: Node, m: Node, id: BdId, src: BdId, dest: BdId, mode: bv32, kind: bv32, point: Point)
    requires kind == 5 || kind == 7 || kind == 10
    requires m.conns == n.conns && m.reqs == n.reqs
    requires var status := CreateErrorCode(0, kind, point);
             m.sent == n.sent + [Packet(n.own, id, ConnectMsg(MsgReply, src, dest, mode, 0, status))]
    ensures Objects(n, m, id, src, dest, mode, kind, point)
  {
    hide CreateErrorCode, Says;
    CodeIs(kind, point);
  }

  /**
   * A request is answered at once, and nothing is filed, exactly if the mode is
   * not allowed (7), the connection is known already or runs the other way (10),
   * or a proxy does not know the destination (5); else it is filed.
   */
  lemma RequestAnswered(n: Node, id: BdId, src: BdId, dest: BdId, mode: bv32, delay: int, found: Option<BdId>, now: int)
    ensures var (m, ok) := RecvRequest(n, id, src, dest, mode, delay, found, now);
            var k, here := Filing(n.own, id.id, src.id, dest.id), Place(n.own, src.id, dest.id);
            if n.allowed & mode == 0 then
              !ok && m.calls == n.calls && Objects(n, m, id, src, dest, mode, 7, here)
            else if k in n.conns then
              !ok && m.calls == n.calls && Objects(n, m, id, src, dest, mode, 10, n.conns[k].point)
            else if Opposed(n, src.id, dest.id) then
              !ok && m.calls == n.calls && Objects(n, m, id, src, dest, mode, 10, here)
            else if mode != 1 && src.id == id.id && found.None? then
              && ok && Objects(n, m, id, src, dest, mode, 5, MidPoint)
              && m.calls == if n.relayServer then n.calls + [NoAddress(n, src, dest, mode)] else n.calls
            else ok && k in m.conns
  {
    hide CreateErrorCode, Objects, Objection, InstallRequested, KeyBySender, Opposed, Position, NoAddress;
    var m := RecvRequest(n, id, src, dest, mode, delay, found, now).0;
    var k, here := Filing(n.own, id.id, src.id, dest.id), Place(n.own, src.id, dest.id);
    ObjectionIs(n, id, src, dest, mode);
    if n.allowed & mode == 0 {
      Objected(n, m, id, src, dest, mode, 7, here);
    } else if k in n.conns {
      Objected(n, m, id, src, dest, mode, 10, n.conns[k].point);
    } else if Opposed(n, src.id, dest.id) {
      Objected(n, m, id, src, dest, mode, 10, here);
    } else {
      InstalledIs(n, k, id, src, dest, mode, delay, found, now);
    }
  }

  lemma ObjectionIs(n: Node, id: BdId, src: BdId, dest: BdId, mode: bv32)
    ensures KeyBySender(n.own, id, src, dest) == Filing(n.own, id.id, src.id, dest.id)
    ensures var k, here := Filing(n.own, id.id, src.id, dest.id), Place(n.own, src.id, dest.id);
            Objection(n, k, mode) == if n.allowed & mode == 0 then Some((7, here))
                                     else if k in n.conns then Some((10, n.conns[k].point))
                                     else if Opposed(n, src.id, dest.id) then Some((10, here)) else None
  {
  }

  lemma InstalledIs(n: Node, k: Tuple, id: BdId, src: BdId, dest: BdId, mode: bv32, delay: int, found: Option<BdId>,
                    now: int)
    ensures var m := InstallRequested(n, k, id, src, dest, mode, delay, found, now);
            if mode != 1 && src.id == id.id && found.None? then
              && Objects(n, m, id, src, dest, mode, 5, MidPoint)
              && m.calls == if n.relayServer then n.calls + [NoAddress(n, src, dest, mode)] else n.calls
            else k in m.conns
  {
    hide CreateErrorCode, Objects, AuthoriseProxyConnection, AuthoriseEndConnection, AuthoriseDirectConnection;
    if mode != 1 && src.id == id.id && found.None? {
      Objected(n, InstallRequested(n, k, id, src, dest, mode, delay, found, now), id, src, dest, mode, 5, MidPoint);
    }
  }

  /** The upcall by which a relay server learns that it was asked for a peer that it does not know. */
  function NoAddress(n: Node, src: BdId, dest: BdId, mode: bv32): Callback {
    Callback(src, BdId(n.own, NO_ADDR), dest, mode, MidPoint, 0, CbAuth, 5)
  }

  // ------------------------------------------------------------- the timer visit

  /** The START for one side. */
  function StartFor(own: NodeId, c: Connection, to: BdId, now: int): Packet {
    Packet(own, to, ConnectMsg(MsgStart, c.srcConnAddr, c.destConnAddr, c.mode, Told(c, now), 0))
  }

  function OneIf(b: bool, p: Packet): seq<Packet> {
    if b then [p] else []
  }

  /**
   * An entry goes without a word after twenty seconds without an event.  While
   * it waits for acknowledgements, every three seconds each side that has not
   * acknowledged is told to start again, and after four rounds it is given up.
   */
  lemma VisitExactly(n: Node, k: Tuple, now: int)
    requires k in n.conns
    ensures var c, (m, erase) := n.conns[k], TickConn(n, k, now);
            if now > c.lastEvent + 20 then m == n && erase
            else if c.state != WaitingAck || now <= c.lastStart + 3 then m == n && !erase
            else if c.retryCount > 3 then
              && erase && m == n.(calls := m.calls)
              && if c.mode == 2 && n.autoProxy then m.calls == n.calls
                 else exists err :: m.calls == n.calls + [Upcall(c, CbFailed).(err := err)] && Says(err, 3, c.point)
            else
              && !erase
              && m == n.(conns := n.conns[k := c.(lastStart := now, retryCount := c.retryCount + 1)],
                         sent := n.sent + (OneIf(!c.srcAck, StartFor(n.own, c, c.srcId, now))
                                           + OneIf(!c.destAck, StartFor(n.own, c, c.destId, now))))
  {
    hide CreateErrorCode, Says;
    TimeoutSays(n.conns[k].point);
  }

  lemma TimeoutSays(point: Point)
    ensures Says(CreateErrorCode(0, ERROR_TIMEOUT, point), 3, point)
  {
  }

  // ----------------------------------------------------------- without a proxy

  /** A direct handshake: the source knows the destination at `peer` and is seen there at `seen`. */
  datatype Direct = Direct(s: NodeId, peer: BdId, local: Addr, seen: Addr, given: Addr) {
    predicate Valid() {
      s != peer.id
    }

    /** The key at the source, and the one at the destination. */
    function Near(): Tuple {
      Tuple(s, peer.id, peer.id)
    }

    function Far(): Tuple {
      Tuple(s, s, peer.id)
    }

    function Source(): BdId {
      BdId(s, if local.ip == ZERO_IP then seen else local)
    }

    function Destination(): BdId {
      Or(BdId(peer.id, given), NO_ADDR)
    }
  }

  function DirectAsked(x: Direct, now: int): Connection {
    Connection(WaitingStart, now, BdId(x.s, NO_ADDR), x.peer, x.peer, StartPoint, 1,
               BdId(x.s, x.local), BdId(x.peer.id, NO_ADDR), 0, 0, now, 0, 0, false, false, 0)
  }

  function DirectAsking(x: Direct): Packet {
    Packet(x.s, x.peer, ConnectMsg(MsgRequest, BdId(x.s, x.local), BdId(x.peer.id, NO_ADDR), 1, 0, 0))
  }

  lemma SourceAsksDirectly(x: Direct, n: Node, now: int)
    requires x.Valid() && n.own == x.s && x.peer.id in n.reqs && Free(n, x.Near(), 1)
    requires var r := n.reqs[x.peer.id];
             && r.state == ReqState.Ready && r.target == x.peer.id && r.mode == 1 && r.localAddr == x.local
             && r.delay == 0 && r.requestTS <= now && r.goodProxies != [] && r.goodProxies[0].id == x.peer
    ensures var r, m := n.reqs[x.peer.id], TickRequest(n, x.peer.id, now).0;
            && m.reqs == n.reqs[x.peer.id := r.(goodProxies := r.goodProxies[1..], currentAttempt := x.peer,
                                                currentSrcType := r.goodProxies[0].srcType,
                                                state := InProgress, stateTS := now)]
            && m.conns == n.conns[x.Near() := DirectAsked(x, now)] && m.sent == n.sent + [DirectAsking(x)]
            && m.calls == n.calls + [Callback(BdId(x.s, x.local), x.peer, BdId(x.peer.id, NO_ADDR), 1, StartPoint, 0,
                                              CbRequest, 0)]
  {
  }

  function DirectOffered(x: Direct, now: int): Connection {
    Connection(WaitingAuth, now, BdId(x.s, x.seen), BdId(x.peer.id, NO_ADDR), BdId(x.s, x.seen), EndPoint, 1,
               BdId(x.s, x.local), BdId(x.peer.id, NO_ADDR), 0, 0, now, 0, 0, false, false, 0)
  }

  /** The destination files it under the source on both places of its key. */
  lemma DestinationFilesDirectly(x: Direct, n: Node, found: Option<BdId>, now: int)
    requires x.Valid() && n.own == x.peer.id && Free(n, x.Far(), 1)
    ensures var m, c := Receive(n, BdId(x.s, x.seen), DirectAsking(x).msg, found, now), DirectOffered(x, now);
            m == n.(conns := n.conns[x.Far() := c], calls := n.calls + [Upcall(c, CbAuth)])
  {
  }

  function DirectAccepted(x: Direct, filed: int, now: int): Connection {
    DirectOffered(x, filed).(state := WaitingAck, lastEvent := now, srcConnAddr := x.Source(),
                             destConnAddr := x.Destination(), destAck := true)
  }

  /** When it agrees it sends nothing yet: it will tell the source to start, and needs no thanks of its own. */
  lemma DestinationAgreesDirectly(x: Direct, n: Node, filed: int, bandwidth: int, delay: int, now: int)
    requires x.Valid() && n.own == x.peer.id && x.Far() in n.conns && n.conns[x.Far()] == DirectOffered(x, filed)
    ensures var m := AuthOk(n, BdId(x.s, NO_ADDR), BdId(x.s, NO_ADDR), BdId(x.peer.id, x.given), 1, EndPoint,
                            bandwidth, delay, now);
            m == n.(conns := n.conns[x.Far() := DirectAccepted(x, filed, now)])
  {
  }

  function DirectStarting(x: Direct, told: int): ConnectMsg {
    ConnectMsg(MsgStart, x.Source(), x.Destination(), 1, told, 0)
  }

  function DirectThanks(x: Direct): ConnectMsg {
    ConnectMsg(MsgAck, BdId(x.s, NO_ADDR), x.peer, 1, 0, 0)
  }

  lemma DestinationTellsStart(x: Direct, n: Node, filed: int, agreed: int, now: int)
    requires x.Valid() && n.own == x.peer.id && now - agreed <= 20 && now > 3
    requires x.Far() in n.conns && n.conns[x.Far()] == DirectAccepted(x, filed, agreed)
    ensures var c := DirectAccepted(x, filed, agreed);
            TickConn(n, x.Far(), now)
            == (n.(conns := n.conns[x.Far() := c.(lastStart := now, retryCount := 1)],
                   sent := n.sent + [Packet(x.peer.id, BdId(x.s, x.seen), DirectStarting(x, Told(c, now)))]), false)
  {
    hide Told;
    VisitExactly(n, x.Far(), now);
    var c := DirectAccepted(x, filed, agreed);
    assert OneIf(!c.srcAck, StartFor(n.own, c, c.srcId, now)) + OneIf(!c.destAck, StartFor(n.own, c, c.destId, now))
        == [Packet(x.peer.id, BdId(x.s, x.seen), DirectStarting(x, Told(c, now)))];
  }

  /** A first START completes an entry, whatever its mode. */
  lemma StartCompletes(n: Node, id: BdId, msg: ConnectMsg, found: Option<BdId>, now: int)
    requires msg.kind == MsgStart
    requires var k := KeyBySender(n.own, id, msg.src, msg.dest); k in n.conns && n.conns[k].state == WaitingStart
    ensures var k := KeyBySender(n.own, id, msg.src, msg.dest);
            var c, relay := n.conns[k], n.conns[k].mode == MODE_RELAY;
            var d := CompleteConnection(c, msg.src, msg.dest, if relay then msg.param else 0,
                                        if relay then 0 else msg.param, now);
            Receive(n, id, msg, found, now)
            == CallbackRequest(n.(conns := n.conns[k := d],
                                  sent := n.sent + [Packet(n.own, id, ConnectMsg(MsgAck, c.srcId, c.destId, msg.mode,
                                                                                 0, 0))]),
                               Made(d, msg.param), now)
  {
    hide CompleteConnection, CallbackRequest, KeyBySender;
  }

  lemma StartIsTold(n: Node, c: Connection, told: int, now: int)
    requires c.point == StartPoint && c.destConnAddr.id in n.reqs
    ensures var t := c.destConnAddr.id;
            CallbackRequest(n, Made(c, told), now)
            == n.(reqs := n.reqs[t := n.reqs[t].(state := ExtConnect, stateTS := now)],
                  calls := n.calls + [Made(c, told)])
  {
    hide FailRequest;
  }

  function DirectStarted(x: Direct, asked: int, told: int, now: int): Connection {
    DirectAsked(x, asked).(state := Completed, lastEvent := now, completedTS := now,
                           srcConnAddr := Or(x.Source(), NO_ADDR), destConnAddr := Or(x.Destination(), x.peer.addr),
                           maxDelay := Max(0, told + (now - asked)))
  }

  lemma DirectIsStarted(x: Direct, asked: int, told: int, now: int)
    ensures var e := DirectStarted(x, asked, told, now);
            && CompleteConnection(DirectAsked(x, asked), x.Source(), x.Destination(), 0, told, now) == e
            && e.point == StartPoint && e.mode == 1 && e.destConnAddr.id == x.peer.id
  {
  }

  /** The source has the address that the destination gave, or else the one it had asked. */
  lemma SourceStartsDirectly(x: Direct, n: Node, asked: int, told: int, addr: Addr, found: Option<BdId>, now: int)
    requires x.Valid() && n.own == x.s && x.peer.id in n.reqs
    requires x.Near() in n.conns && n.conns[x.Near()] == DirectAsked(x, asked)
    ensures var m := Receive(n, BdId(x.peer.id, addr), DirectStarting(x, told), found, now);
            var e := DirectStarted(x, asked, told, now);
            && m.conns == n.conns[x.Near() := e]
            && m.reqs == n.reqs[x.peer.id := n.reqs[x.peer.id].(state := ExtConnect, stateTS := now)]
            && m.sent == n.sent + [Packet(x.s, BdId(x.peer.id, addr), DirectThanks(x))]
            && m.calls == n.calls + [Made(e, told)]
  {
    hide Receive, CompleteConnection, CallbackRequest, DirectStarted, Made;
    var id, msg := BdId(x.peer.id, addr), DirectStarting(x, told);
    assert KeyBySender(n.own, id, msg.src, msg.dest) == x.Near();
    StartCompletes(n, id, msg, found, now);
    DirectIsStarted(x, asked, told, now);
    var e := DirectStarted(x, asked, told, now);
    StartIsTold(n.(conns := n.conns[x.Near() := e],
                   sent := n.sent + [Packet(x.s, BdId(x.peer.id, addr), DirectThanks(x))]), e, told, now);
  }

  /** Thanked by the source, the destination drops the entry and connects to the source. */
  lemma DestinationIsThanked(x: Direct, n: Node, c: Connection, found: Option<BdId>, now: int)
    requires x.Valid() && n.own == x.peer.id && x.Far() in n.conns && n.conns[x.Far()] == c
    requires c.state == WaitingAck && c.point == EndPoint && c.mode == 1 && c.destAck && c.srcConnAddr.id == x.s
    ensures var m := Receive(n, BdId(x.s, x.seen), DirectThanks(x), found, now);
            && m.conns == n.conns - {x.Far()} && m.sent == n.sent
            && m.reqs == (if x.s in n.reqs then n.reqs[x.s := n.reqs[x.s].(state := ExtConnect, stateTS := now)]
                          else n.reqs)
            && m.calls == n.calls + [Callback(c.srcConnAddr, c.proxyId, c.destId, 1, EndPoint, 0, CbStart, 0)]
  {
    hide FailRequest, RecvRequest, RecvReply, RecvStart;
  }
}
