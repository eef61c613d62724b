/**
 * What every node keeps about its own connection table, whatever messages it
 * gets: entries only move forward, are never overwritten, never run in both
 * directions between two peers, and die in time.
 */
module ConnectionTable {
  import opened Collections
  import opened Ids
  import opened ConnectTypes
  import opened ConnectSpec
  import opened Handshake
  import opened HandshakeRuns

  // ------------------------------------------------------- one timer visit

  predicate Due(c: Connection, now: int) {
    c.state == WaitingAck && now - c.lastStart > START_RETRY_PERIOD
  }

  predicate Expired(c: Connection, now: int) {
    now - c.lastEvent > CONNECTION_MAX_TIMEOUT || (Due(c, now) && c.retryCount > START_MAX_RETRY)
  }

  function Ticked(c: Connection, now: int): Connection {
    if Due(c, now) && !Expired(c, now) then c.(lastStart := now, retryCount := c.retryCount + 1) else c
  }

  /** A visit sends START to each side that has not acknowledged, once per retry. */
  lemma TickConnVisit(n: Node, k: Tuple, now: int)
    requires k in n.conns
    ensures var (m, erase) := TickConn(n, k, now);
            var c := n.conns[k];
            && m.conns == n.conns[k := Ticked(c, now)]
            && erase == Expired(c, now)
            && m.sent == n.sent + StartRound(n.own, c, now)
  {
    var c := n.conns[k];
    assert n.conns == n.conns[k := c];
    assert n.sent == n.sent + [];
  }

  /** What one visit sends to one side. */
  function StartDue(own: NodeId, c: Connection, to: BdId, acked: bool, now: int): seq<Packet> {
    if !Due(c, now) || Expired(c, now) then [] else StartTo(own, c, to, acked, now)
  }

  /** The START messages of one visit. */
  function StartRound(own: NodeId, c: Connection, now: int): seq<Packet> {
    StartDue(own, c, c.srcId, c.srcAck, now) + StartDue(own, c, c.destId, c.destAck, now)
  }

  lemma {:induction false} VisitConnsEntries(n: Node, ks: seq<Tuple>, now: int)
    requires forall k :: k in ks ==> k in n.conns
    requires forall i, j :: 0 <= i < j < |ks| ==> ks[i] != ks[j]
    ensures var (m, gone) := VisitConns(n, ks, now);
            && (forall k :: k in n.conns ==> m.conns[k] == if k in ks then Ticked(n.conns[k], now) else n.conns[k])
            && (forall k :: k in gone <==> k in ks && Expired(n.conns[k], now))
  {
    if ks != [] {
      var last := |ks| - 1;
      VisitConnsEntries(n, ks[..last], now);
      var m := VisitConns(n, ks[..last], now).0;
      assert ks[last] !in ks[..last];
      TickConnVisit(m, ks[last], now);
    }
  }

  /** The loop with its erase list does what a single sweep of the table would. */
  lemma TickConnsSweeps(n: Node, order: seq<Tuple>, now: int)
    requires Lists(order, n.conns.Keys)
    ensures TickConns(n, order, now).conns
         == map k | k in n.conns && !Expired(n.conns[k], now) :: Ticked(n.conns[k], now)
  {
    VisitConnsEntries(n, order, now);
  }

  // ----------------------------------------------------- entries move forward

  /** How many transitions are left to a connection in this state. */
  function Left(s: ConnState): nat {
    match s
    case WaitingAuth => 2
    case WaitingReply => 1
    case WaitingStart => 1
    case WaitingAck => 0
    case Completed => 0
  }

  predicate Fresh(c: Connection, t: int) {
    && c.lastEvent == c.connectionStartTS == t && c.retryCount == 0
    && c.state != Completed && c.state != WaitingAck
  }

  /**
   * An old entry stays in its state, where only its retries and acknowledgements
   * go on, or moves to a state of a higher number, still under the same ids.
   */
  predicate Evolves(c: Connection, d: Connection, t: int) {
    if d.state == c.state then
      && d == c.(lastStart := d.lastStart, retryCount := d.retryCount, srcAck := d.srcAck, destAck := d.destAck)
      && (c.srcAck ==> d.srcAck) && (c.destAck ==> d.destAck)
      && (d.retryCount == c.retryCount || (c.retryCount <= START_MAX_RETRY && d.retryCount == c.retryCount + 1))
    else
      && d.connectionStartTS == c.connectionStartTS && d.point == c.point && d.mode == c.mode
      && d.srcId.id == c.srcId.id && d.proxyId.id == c.proxyId.id && d.destId.id == c.destId.id
      && d.state.Rank() > c.state.Rank() && Left(d.state) < Left(c.state)
      && d.lastEvent == t && (d.retryCount == 0 || d.retryCount == c.retryCount)
  }

  ghost predicate Moves(n: Node, m: Node, t: int) {
    forall k :: k in m.conns ==>
      if k in n.conns then Evolves(n.conns[k], m.conns[k], t) else Fresh(m.conns[k], t)
  }

  ghost predicate OneDirection(n: Node) {
    forall k, l :: k in n.conns && l in n.conns && k.src != k.dest ==> !(k.src == l.dest && k.dest == l.src)
  }

  /** Either no new key, or one new key without an opposite connection. */
  ghost predicate AddsAtMost(n: Node, m: Node, k: Tuple) {
    && m.conns.Keys <= n.conns.Keys + {k}
    && (k in m.conns && k !in n.conns ==> !FindSimilar(n.conns, k.dest, k.src))
  }

  lemma AddsKeepsDirection(n: Node, m: Node, k: Tuple)
    requires OneDirection(n) && AddsAtMost(n, m, k)
    ensures OneDirection(m)
  {
  }

  lemma CallbackKeepsConns(n: Node, cb: Callback, now: int)
    ensures CallbackRequest(n, cb, now).conns == n.conns
  {
  }

  lemma PutMoves(n: Node, m: Node, k: Tuple, c: Connection, now: int)
    requires k in n.conns && Evolves(n.conns[k], c, now) && m.conns == n.conns[k := c]
    ensures Moves(n, m, now) && m.conns.Keys == n.conns.Keys
  {
  }

  /** The one entry that an authorisation is about. */
  lemma AuthOkEntry(n: Node, src: BdId, proxy: BdId, dest: BdId, mode: bv32, loc: Point,
                    bandwidth: int, delay: int, now: int)
    ensures var m, k := AuthOk(n, src, proxy, dest, mode, loc, bandwidth, delay, now), Tuple(src.id, proxy.id, dest.id);
            m.conns == n.conns
            || (k in n.conns && k in m.conns && m.conns == n.conns[k := m.conns[k]]
                && Evolves(n.conns[k], m.conns[k], now)
                && (mode != MODE_DIRECT && loc != EndPoint ==> m.conns[k].state == WaitingReply))
  {
  }

  lemma AuthOkMoves(n: Node, src: BdId, proxy: BdId, dest: BdId, mode: bv32, loc: Point,
                    bandwidth: int, delay: int, now: int)
    ensures var m := AuthOk(n, src, proxy, dest, mode, loc, bandwidth, delay, now);
            && Moves(n, m, now) && m.conns.Keys == n.conns.Keys
            && (mode != MODE_DIRECT && loc != EndPoint ==> forall k :: k in n.conns ==>
                  m.conns[k].state == n.conns[k].state || m.conns[k].state == WaitingReply)
  {
    AuthOkEntry(n, src, proxy, dest, mode, loc, bandwidth, delay, now);
    var m, k := AuthOk(n, src, proxy, dest, mode, loc, bandwidth, delay, now), Tuple(src.id, proxy.id, dest.id);
    if m.conns != n.conns {
      PutMoves(n, m, k, m.conns[k], now);
    }
  }

  /** The automatic proxy installs an entry and authorises it at once; it is fresh all the same. */
  lemma InstallProxyMoves(n: Node, k: Tuple, c: Connection, now: int)
    requires k !in n.conns && Fresh(c, now) && c.mode != MODE_DIRECT && c.point == MidPoint
    ensures var m := AuthOk(n.(conns := n.conns[k := c]), c.srcId, c.proxyId, c.destId, c.mode, c.point, 0, 0, now);
            Moves(n, m, now) && m.conns.Keys == n.conns.Keys + {k}
  {
    AuthOkMoves(n.(conns := n.conns[k := c]), c.srcId, c.proxyId, c.destId, c.mode, c.point, 0, 0, now);
  }

  lemma SameMoves(n: Node, m: Node, now: int)
    requires m.conns == n.conns
    ensures Moves(n, m, now)
  {
  }

  lemma FreshMoves(n: Node, m: Node, k: Tuple, c: Connection, now: int)
    requires k !in n.conns && Fresh(c, now) && m.conns == n.conns[k := c]
    ensures Moves(n, m, now) && m.conns.Keys == n.conns.Keys + {k}
  {
  }

  lemma RequestedIsFresh(id: BdId, src: BdId, own: NodeId, dest: BdId, mode: bv32, delay: int, now: int)
    ensures Fresh(ConnectionRequestDirect(id, src, dest, now), now)
    ensures Fresh(ConnectionRequestEnd(id, src, dest, mode, now), now)
    ensures var c := ConnectionRequestProxy(id, src, own, dest, mode, delay, now);
            Fresh(c, now) && c.mode == mode && c.point == MidPoint
  {
  }

  lemma InstallMoves(n: Node, k: Tuple, id: BdId, src: BdId, dest: BdId, mode: bv32, delay: int,
                     found: Option<BdId>, now: int)
    requires k !in n.conns
    ensures var m := InstallRequested(n, k, id, src, dest, mode, delay, found, now);
            Moves(n, m, now) && m.conns.Keys <= n.conns.Keys + {k}
  {
    hide AuthOk, Moves, CreateErrorCode, Fresh, ConnectionRequestDirect, ConnectionRequestEnd, ConnectionRequestProxy;
    RequestedIsFresh(id, src, n.own, if found.Some? then found.value else dest, mode, delay, now);
    RequestedIsFresh(id, src, n.own, dest, mode, delay, now);
    var m := InstallRequested(n, k, id, src, dest, mode, delay, found, now);
    if mode == MODE_DIRECT {
      FreshMoves(n, m, k, ConnectionRequestDirect(id, src, dest, now), now);
    } else if src.id != id.id {
      FreshMoves(n, m, k, ConnectionRequestEnd(id, src, dest, mode, now), now);
    } else if found.Some? {
      var c := ConnectionRequestProxy(id, src, n.own, found.value, mode, delay, now);
      InstallProxyMoves(n, k, c, now);
      FreshMoves(n, n.(conns := n.conns[k := c]).CallFor(c, CbAuth, 0), k, c, now);
    } else {
      SameMoves(n, m, now);
    }
  }

  lemma RecvRequestMoves(n: Node, id: BdId, src: BdId, dest: BdId, mode: bv32, delay: int,
                         found: Option<BdId>, now: int)
    ensures var m := RecvRequest(n, id, src, dest, mode, delay, found, now).0;
            Moves(n, m, now) && AddsAtMost(n, m, KeyBySender(n.own, id, src, dest))
  {
    hide Moves, InstallRequested, CreateErrorCode;
    var k := KeyBySender(n.own, id, src, dest);
    if Objection(n, k, mode).None? {
      InstallMoves(n, k, id, src, dest, mode, delay, found, now);
    } else {
      SameMoves(n, RecvRequest(n, id, src, dest, mode, delay, found, now).0, now);
    }
  }

  lemma ReplyAtProxyMoves(n: Node, k: Tuple, dest: BdId, mode: bv32, delay: int, status: bv32, now: int)
    requires k in n.conns
    ensures var m := ReplyAtProxy(n, k, n.conns[k], dest, mode, delay, status, now).0;
            Moves(n, m, now) && m.conns.Keys <= n.conns.Keys
  {
    if status == ANSWER_OKAY && n.conns[k].state == WaitingReply {
      PutMoves(n, ReplyAtProxy(n, k, n.conns[k], dest, mode, delay, status, now).0, k,
               UpgradeToFinish(n.conns[k], dest, delay, now), now);
    }
  }

  lemma RecvReplyMoves(n: Node, id: BdId, src: BdId, dest: BdId, mode: bv32, delay: int, status: bv32, now: int)
    ensures var m := RecvReply(n, id, src, dest, mode, delay, status, now).0;
            Moves(n, m, now) && m.conns.Keys <= n.conns.Keys
  {
    var k := KeyBySender(n.own, id, src, dest);
    if k in n.conns {
      var c := n.conns[k];
      if c.point.MidPoint? {
        ReplyAtProxyMoves(n, k, dest, mode, delay, status, now);
      } else if c.point.StartPoint? {
        var err := if status != ANSWER_OKAY then status else CreateErrorCode(0, ERROR_PROTOCOL, c.point);
        CallbackKeepsConns(n, Callback(c.srcId, c.proxyId, c.destId, c.mode, c.point, 0, CbFailed, err), now);
      }
    }
  }

  lemma RecvStartMoves(n: Node, id: BdId, src: BdId, dest: BdId, mode: bv32, param: int, now: int)
    ensures var m := RecvStart(n, id, src, dest, mode, param, now).0;
            Moves(n, m, now) && m.conns.Keys == n.conns.Keys
  {
    hide Moves, CallbackRequest, CompleteConnection;
    var k := KeyBySender(n.own, id, src, dest);
    var m := RecvStart(n, id, src, dest, mode, param, now).0;
    if k in n.conns && n.conns[k].state == WaitingStart {
      var c := n.conns[k];
      var relay := c.mode == MODE_RELAY;
      var d := CompleteConnection(c, src, dest, if relay then param else 0, if relay then 0 else param, now);
      CompletedEntry(c, src, dest, if relay then param else 0, if relay then 0 else param, now);
      assert Evolves(c, d, now);
      CallbackKeepsConns(n.Send(id, MsgAck, c.srcId, c.destId, mode, 0, ANSWER_OKAY).(conns := n.conns[k := d]),
                         Callback(d.srcConnAddr, d.proxyId, d.destConnAddr, d.mode, d.point, param, CbStart, 0), now);
      PutMoves(n, m, k, d, now);
    } else {
      SameMoves(n, m, now);
    }
  }

  lemma RecvAckMoves(n: Node, id: BdId, src: BdId, dest: BdId, now: int)
    ensures var m := RecvAck(n, id, src, dest, now).0;
            Moves(n, m, now) && m.conns.Keys <= n.conns.Keys
  {
    RecvAckTable(n, id, src, dest, now);
  }

  lemma TickConnsMoves(n: Node, order: seq<Tuple>, now: int)
    requires Lists(order, n.conns.Keys)
    ensures Moves(n, TickConns(n, order, now), now) && TickConns(n, order, now).conns.Keys <= n.conns.Keys
  {
    TickConnsSweeps(n, order, now);
  }

  /** One fresh entry more, and none the other way. */
  ghost predicate AddsFresh(n: Node, m: Node, k: Tuple, now: int) {
    && k !in n.conns && k in m.conns && m.conns == n.conns[k := m.conns[k]]
    && Fresh(m.conns[k], now) && !FindSimilar(n.conns, k.dest, k.src)
  }

  lemma StartAttemptMoves(n: Node, proxy: BdId, src: BdId, dest: BdId, mode: bv32, delay: int, now: int)
    ensures var m := StartAttempt(n, proxy, src, dest, mode, delay, now).0;
            m.conns == n.conns || exists k :: AddsFresh(n, m, k, now)
  {
    var m := StartAttempt(n, proxy, src, dest, mode, delay, now).0;
    if m.conns != n.conns {
      assert AddsFresh(n, m, KeyBySender(n.own, proxy, src, dest), now);
    }
  }

  lemma TickRequestMoves(n: Node, t: NodeId, now: int)
    requires t in n.reqs
    ensures var m := TickRequest(n, t, now).0;
            m.conns == n.conns || exists k :: AddsFresh(n, m, k, now)
  {
    hide StartAttempt, AddsFresh;
    var r := n.reqs[t];
    if r.state == Ready && r.goodProxies != [] {
      var n1, delay := StartRequestSteps(n, t, now);
      var s := StartRequest(n, t, now).0;
      StartAttemptMoves(n1, r.goodProxies[0].id, BdId(n.own, r.localAddr), BdId(r.target, NO_ADDR), r.mode, delay, now);
      if s.conns != n.conns {
        var k :| AddsFresh(n1, s, k, now);
        SameAddsFresh(n1, s, n, TickRequest(n, t, now).0, k, now);
      }
    }
  }

  lemma SameAddsFresh(n1: Node, m1: Node, n: Node, m: Node, k: Tuple, now: int)
    requires AddsFresh(n1, m1, k, now) && n1.conns == n.conns && m1.conns == m.conns
    ensures AddsFresh(n, m, k, now)
  {
  }

  lemma AddsFreshMoves(n: Node, m: Node, k: Tuple, now: int)
    requires AddsFresh(n, m, k, now)
    ensures (forall l :: l in n.conns ==> l in m.conns && m.conns[l] == n.conns[l])
    ensures (forall l :: l in m.conns && l !in n.conns ==> Fresh(m.conns[l], now))
    ensures OneDirection(n) ==> OneDirection(m)
  {
    if OneDirection(n) {
      AddsKeepsDirection(n, m, k);
    }
  }

  lemma {:induction false} VisitRequestsMoves(n: Node, ts: seq<NodeId>, now: int)
    requires forall t :: t in ts ==> t in n.reqs
    ensures var m := VisitRequests(n, ts, now).0;
            && (forall k :: k in n.conns ==> k in m.conns && m.conns[k] == n.conns[k])
            && (forall k :: k in m.conns && k !in n.conns ==> Fresh(m.conns[k], now))
            && (OneDirection(n) ==> OneDirection(m))
  {
    hide TickRequest, AddsFresh, OneDirection, Fresh;
    if ts != [] {
      var last := |ts| - 1;
      VisitRequestsMoves(n, ts[..last], now);
      var m := VisitRequests(n, ts[..last], now).0;
      TickRequestMoves(m, ts[last], now);
      var m' := TickRequest(m, ts[last], now).0;
      if m'.conns == m.conns {
        SameDirection(m, m');
      } else {
        var k :| AddsFresh(m, m', k, now);
        AddsFreshMoves(m, m', k, now);
      }
    }
  }

  lemma SameDirection(n: Node, m: Node)
    requires m.conns == n.conns
    ensures OneDirection(n) == OneDirection(m)
  {
  }

  lemma ReceiveMoves(n: Node, id: BdId, msg: ConnectMsg, found: Option<BdId>, now: int)
    ensures Moves(n, Receive(n, id, msg, found, now), now)
    ensures AddsAtMost(n, Receive(n, id, msg, found, now), KeyBySender(n.own, id, msg.src, msg.dest))
  {
    hide Moves, RecvRequest, RecvReply, RecvStart, RecvAck;
    match msg.kind {
      case MsgRequest => RecvRequestMoves(n, id, msg.src, msg.dest, msg.mode, msg.param, found, now);
      case MsgReply => RecvReplyMoves(n, id, msg.src, msg.dest, msg.mode, msg.param, msg.status, now);
      case MsgStart => RecvStartMoves(n, id, msg.src, msg.dest, msg.mode, msg.param, now);
      case MsgAck => RecvAckMoves(n, id, msg.src, msg.dest, now);
    }
  }

  /** Each action moves the entries forward, adds fresh ones, or drops them. */
  lemma ActMoves(n: Node, a: Action, t: int)
    requires CanAct(n, a) && (TimeOf(a).Some? ==> TimeOf(a).value == t)
    ensures Moves(n, Act(n, a), t)
    ensures OneDirection(n) ==> OneDirection(Act(n, a))
  {
    var m := Act(n, a);
    match a {
      case Deliver(pkt, addr, found, now) =>
        ReceiveMoves(n, BdId(pkt.from, addr), pkt.msg, found, now);
        if OneDirection(n) {
          AddsKeepsDirection(n, m, KeyBySender(n.own, BdId(pkt.from, addr), pkt.msg.src, pkt.msg.dest));
        }
      case Authorise(_, src, proxy, dest, bandwidth, delay, now) =>
        var (mode, loc) := Echo(n, AuthKey(a));
        AuthOkMoves(n, src, proxy, dest, mode, loc, bandwidth, delay, now);
      case TickTable(_, keys, now) => TickConnsMoves(n, keys, now);
      case TickReqs(_, targets, now) => VisitRequestsMoves(n, targets, now);
      case Refuse(_, _, _, _, _) =>
        assert m.conns == n.conns - {AuthKey(a)} || m.conns == n.conns;
      case Shutdown(_) =>
      case _ =>
        assert m.conns == n.conns;
    }
  }

  // ----------------------------------------------------- lifetime under ticking

  /** One node with its clock and the time of its last timer sweep. */
  datatype Clocked = Clocked(node: Node, now: int, lastTick: int)

  /** Time does not run backwards and the sweeps are at most `gap` apart. */
  ghost predicate Timely(s: Clocked, a: Action, gap: int) {
    && CanAct(s.node, a)
    && (TimeOf(a).Some? ==> s.now <= TimeOf(a).value <= s.lastTick + gap)
  }

  ghost function StepClock(s: Clocked, a: Action, gap: int): Clocked {
    if !Timely(s, a, gap) then s
    else
      var t := if TimeOf(a).Some? then TimeOf(a).value else s.now;
      Clocked(Act(s.node, a), t, if a.TickTable? then t else s.lastTick)
  }

  ghost function RunClock(s: Clocked, acts: seq<Action>, gap: int): Clocked {
    if acts == [] then s
    else StepClock(RunClock(s, acts[..|acts| - 1], gap), acts[|acts| - 1], gap)
  }

  /** How much later than its creation the last event of an entry can be. */
  function Slack(s: ConnState, gap: int): int {
    match Left(s)
    case 2 => 0
    case 1 => CONNECTION_MAX_TIMEOUT + gap
    case _ => 2 * (CONNECTION_MAX_TIMEOUT + gap)
  }

  predicate EntryTimed(c: Connection, now: int, lastTick: int, gap: int) {
    && lastTick - CONNECTION_MAX_TIMEOUT <= c.lastEvent <= now
    && c.connectionStartTS <= c.lastEvent <= c.connectionStartTS + Slack(c.state, gap)
    && 0 <= c.retryCount <= START_MAX_RETRY + 1
  }

  ghost predicate TableTimed(s: Clocked, gap: int) {
    && s.lastTick <= s.now <= s.lastTick + gap
    && OneDirection(s.node)
    && forall k :: k in s.node.conns ==> EntryTimed(s.node.conns[k], s.now, s.lastTick, gap)
  }

  lemma EvolvedTimed(c: Connection, d: Connection, now: int, lastTick: int, t: int, gap: int)
    requires EntryTimed(c, now, lastTick, gap) && Evolves(c, d, t)
    requires now <= t <= lastTick + gap
    ensures EntryTimed(d, t, lastTick, gap)
  {
  }

  lemma StepTimed(s: Clocked, a: Action, gap: int)
    requires TableTimed(s, gap)
    ensures TableTimed(StepClock(s, a, gap), gap)
  {
    if Timely(s, a, gap) {
      var s' := StepClock(s, a, gap);
      ActMoves(s.node, a, s'.now);
      forall k | k in s'.node.conns
        ensures EntryTimed(s'.node.conns[k], s'.now, s'.lastTick, gap)
      {
        if k in s.node.conns {
          EvolvedTimed(s.node.conns[k], s'.node.conns[k], s.now, s.lastTick, s'.now, gap);
          if a.TickTable? {
            TickConnsSweeps(s.node, a.keys, a.now);
          }
        }
      }
    }
  }

  lemma {:induction false} RunTimed(s: Clocked, acts: seq<Action>, gap: int)
    requires TableTimed(s, gap)
    ensures TableTimed(RunClock(s, acts, gap), gap)
  {
    if acts != [] {
      RunTimed(s, acts[..|acts| - 1], gap);
      StepTimed(RunClock(s, acts[..|acts| - 1], gap), acts[|acts| - 1], gap);
    }
  }

  /**
   * In every run of a node that sweeps its table at least every `gap` seconds,
   * no connection gets older than three timeouts, no entry counts more than
   * START_MAX_RETRY + 1 rounds, and no two connections are opposite.
   */
  lemma ConnectionsDie(s: Clocked, acts: seq<Action>, gap: int, k: Tuple)
    requires s.node.conns == map[] && s.lastTick == s.now && gap >= 0
    requires k in RunClock(s, acts, gap).node.conns
    ensures var e := RunClock(s, acts, gap);
            && e.now - e.node.conns[k].connectionStartTS <= 3 * (CONNECTION_MAX_TIMEOUT + gap)
            && e.node.conns[k].retryCount <= START_MAX_RETRY + 1
            && OneDirection(e.node)
  {
    RunTimed(s, acts, gap);
    var e := RunClock(s, acts, gap);
    assert EntryTimed(e.node.conns[k], e.now, e.lastTick, gap);
  }

  // ---------------------------------------------------------------- stored ids

  /** Whether the ids that a request leaves in its entry are those of the key it is filed under. */
  predicate FiledAsKeyed(own: NodeId, id: NodeId, src: NodeId, dest: NodeId, mode: bv32) {
    if mode == MODE_DIRECT then id == src && (own == src || own == dest || own == id)
    else if id == src then own == src || own != dest
    else own == src || own == dest || own == id
  }

  /** A request without objection that does not fail for want of an address is filed under its key. */
  predicate Installs(n: Node, id: BdId, src: BdId, dest: BdId, mode: bv32, found: Option<BdId>) {
    && Objection(n, KeyBySender(n.own, id, src, dest), mode).None?
    && (mode != MODE_DIRECT && src.id == id.id ==> found.Some? && found.value.id == dest.id)
  }

  /** The stored ids agree with the key exactly if sender and node play the parts that the mode expects of them. */
  lemma RequestIds(n: Node, id: BdId, src: BdId, dest: BdId, mode: bv32, delay: int, found: Option<BdId>, now: int)
    requires Installs(n, id, src, dest, mode, found)
    ensures var k := KeyBySender(n.own, id, src, dest);
            var m := RecvRequest(n, id, src, dest, mode, delay, found, now).0;
            k in m.conns && (m.conns[k].HasIds(k) <==> FiledAsKeyed(n.own, id.id, src.id, dest.id, mode))
  {
    var k := KeyBySender(n.own, id, src, dest);
    if mode != MODE_DIRECT && src.id == id.id {
      var c := ConnectionRequestProxy(id, src, n.own, found.value, mode, delay, now);
      AuthOkIds(n.(conns := n.conns[k := c]), k, c.srcId, c.proxyId, c.destId, c.mode, c.point, now);
    }
  }

  lemma AuthOkIds(n: Node, k: Tuple, src: BdId, proxy: BdId, dest: BdId, mode: bv32, loc: Point, now: int)
    requires k in n.conns
    ensures var m := AuthOk(n, src, proxy, dest, mode, loc, 0, 0, now);
            k in m.conns && (m.conns[k].HasIds(k) <==> n.conns[k].HasIds(k))
  {
    AuthOkEntry(n, src, proxy, dest, mode, loc, 0, 0, now);
  }

  /** A direct request from somebody else than the source it names is filed under ids that are not its key's. */
  lemma DirectFromAnother(n: Node, id: BdId, src: BdId, dest: BdId, now: int)
    requires n.conns == map[] && n.allowed & MODE_DIRECT != 0 && n.own == dest.id && id.id != src.id
    ensures var k := KeyBySender(n.own, id, src, dest);
            var m := RecvRequest(n, id, src, dest, MODE_DIRECT, 0, None, now).0;
            k in m.conns && !m.conns[k].HasIds(k)
  {
    RequestIds(n, id, src, dest, MODE_DIRECT, 0, None, now);
  }

  /** So is a proxied request that comes straight from its source to the destination, ... */
  lemma ProxiedWithoutProxy(n: Node, src: BdId, dest: BdId, mode: bv32, now: int)
    requires n.conns == map[] && n.allowed & mode != 0 && mode != MODE_DIRECT && n.own == dest.id && src.id != dest.id
    ensures var k := KeyBySender(n.own, src, src, dest);
            var m := RecvRequest(n, src, src, dest, mode, 0, Some(dest), now).0;
            k in m.conns && !m.conns[k].HasIds(k)
  {
    RequestIds(n, src, src, dest, mode, 0, Some(dest), now);
  }

  /** ... and one that a third party sends to a node that is neither end. */
  lemma ProxiedToBystander(n: Node, id: BdId, src: BdId, dest: BdId, mode: bv32, now: int)
    requires n.conns == map[] && n.allowed & mode != 0 && mode != MODE_DIRECT
    requires n.own != src.id && n.own != dest.id && n.own != id.id && id.id != src.id
    ensures var k := KeyBySender(n.own, id, src, dest);
            var m := RecvRequest(n, id, src, dest, mode, 0, None, now).0;
            k in m.conns && !m.conns[k].HasIds(k)
  {
    RequestIds(n, id, src, dest, mode, 0, None, now);
  }
}
