/** The START packets a node sends: only the sweeps of its table send any, a few for each entry. */
module StartPackets {
  import opened Collections
  import opened Ids
  import opened ConnectTypes
  import opened ConnectSpec
  import opened Handshake
  import opened HandshakeRuns
  import opened ConnectionTable

  /** The START messages among the packets. */
  function Starts(ps: seq<Packet>): seq<Packet> {
    if ps == [] then []
    else Starts(ps[..|ps| - 1]) + if ps[|ps| - 1].msg.kind == MsgStart then [ps[|ps| - 1]] else []
  }

  lemma StartsOneMore(ps: seq<Packet>, p: Packet)
    ensures Starts(ps + [p]) == Starts(ps) + if p.msg.kind == MsgStart then [p] else []
  {
    assert (ps + [p])[..|ps|] == ps;
  }

  /** The STARTs of a whole sweep in the order of the visits. */
  function SweepRounds(own: NodeId, conns: map<Tuple, Connection>, ks: seq<Tuple>, now: int): seq<Packet>
    requires forall k :: k in ks ==> k in conns
  {
    if ks == [] then []
    else
      var last := |ks| - 1;
      SweepRounds(own, conns, ks[..last], now) + StartRound(own, conns[ks[last]], now)
  }

  lemma {:induction false} VisitConnsSends(n: Node, ks: seq<Tuple>, now: int)
    requires forall k :: k in ks ==> k in n.conns
    requires forall i, j :: 0 <= i < j < |ks| ==> ks[i] != ks[j]
    ensures VisitConns(n, ks, now).0.sent == n.sent + SweepRounds(n.own, n.conns, ks, now)
  {
    hide TickConn, StartRound, Ticked, Expired;
    if ks != [] {
      var last := |ks| - 1;
      VisitConnsSends(n, ks[..last], now);
      VisitConnsEntries(n, ks[..last], now);
      assert ks[last] !in ks[..last];
      var m := VisitConns(n, ks[..last], now).0;
      TickConnVisit(m, ks[last], now);
      assert VisitConns(n, ks, now).0 == TickConn(m, ks[last], now).0;
      hide VisitConns;
      assert m.own == n.own && m.conns[ks[last]] == n.conns[ks[last]];
    }
  }

  /** A sweep sends the START rounds of its entries, each as it was before the sweep, and nothing else. */
  lemma TickConnsSends(n: Node, order: seq<Tuple>, now: int)
    requires Lists(order, n.conns.Keys)
    ensures TickConns(n, order, now).sent == n.sent + SweepRounds(n.own, n.conns, order, now)
  {
    VisitConnsSends(n, order, now);
  }

  /** At most one packet more, and not a START. */
  ghost predicate AnswersOnce(n: Node, m: Node) {
    m.sent == n.sent || exists p: Packet :: p.msg.kind != MsgStart && m.sent == n.sent + [p]
  }

  lemma AnswersNoStart(n: Node, m: Node)
    requires AnswersOnce(n, m)
    ensures Starts(m.sent) == Starts(n.sent)
  {
    if m.sent != n.sent {
      var p: Packet :| p.msg.kind != MsgStart && m.sent == n.sent + [p];
      StartsOneMore(n.sent, p);
    }
  }

  lemma SendAnswers(n: Node, to: BdId, kind: MsgKind, src: BdId, dest: BdId, mode: bv32, param: int, status: bv32)
    requires kind != MsgStart
    ensures AnswersOnce(n, n.Send(to, kind, src, dest, mode, param, status))
  {
    var p := Packet(n.own, to, ConnectMsg(kind, src, dest, mode, param, status));
    assert n.Send(to, kind, src, dest, mode, param, status).sent == n.sent + [p];
  }

  lemma AuthOkAnswers(n: Node, src: BdId, proxy: BdId, dest: BdId, mode: bv32, loc: Point,
                      bandwidth: int, delay: int, now: int)
    ensures AnswersOnce(n, AuthOk(n, src, proxy, dest, mode, loc, bandwidth, delay, now))
  {
    var k := Tuple(src.id, proxy.id, dest.id);
    if k in n.conns && n.conns[k].state == WaitingAuth && mode != MODE_DIRECT {
      if loc == EndPoint {
        var c := AuthoriseEndConnection(n.conns[k], dest, delay, now);
        SendAnswers(n, c.proxyId, MsgReply, c.srcConnAddr, c.destConnAddr, c.mode, c.maxDelay, ANSWER_OKAY);
      } else {
        var c := AuthoriseProxyConnection(n.conns[k], bandwidth, now);
        SendAnswers(n, c.destId, MsgRequest, c.srcConnAddr, c.destConnAddr, c.mode, 0, ANSWER_OKAY);
      }
    }
  }

  lemma AuthNoAnswers(n: Node, src: BdId, proxy: BdId, dest: BdId, mode: bv32, loc: Point, err: bv32)
    ensures AnswersOnce(n, AuthNo(n, src, proxy, dest, mode, loc, err))
  {
    var k := Tuple(src.id, proxy.id, dest.id);
    if k in n.conns {
      var c := n.conns[k];
      var to := if mode != MODE_DIRECT && loc == EndPoint then c.proxyId else c.srcId;
      SendAnswers(n, to, MsgReply, c.srcConnAddr, c.destConnAddr, mode, 0,
                  CreateErrorCode(err, ERROR_AUTH_DENIED, c.point));
    }
  }

  lemma InstallAnswers(n: Node, k: Tuple, id: BdId, src: BdId, dest: BdId, mode: bv32, delay: int,
                       found: Option<BdId>, now: int)
    ensures AnswersOnce(n, InstallRequested(n, k, id, src, dest, mode, delay, found, now))
  {
    if mode != MODE_DIRECT && src.id == id.id {
      if found.None? {
        SendAnswers(n, id, MsgReply, src, dest, mode, 0, CreateErrorCode(0, ERROR_NOADDRESS, MidPoint));
      } else {
        var c := ConnectionRequestProxy(id, src, n.own, found.value, mode, delay, now);
        AuthOkAnswers(n.(conns := n.conns[k := c]), c.srcId, c.proxyId, c.destId, c.mode, c.point, 0, 0, now);
      }
    }
  }

  lemma RecvRequestAnswers(n: Node, id: BdId, src: BdId, dest: BdId, mode: bv32, delay: int,
                           found: Option<BdId>, now: int)
    ensures AnswersOnce(n, RecvRequest(n, id, src, dest, mode, delay, found, now).0)
  {
    var k := KeyBySender(n.own, id, src, dest);
    match Objection(n, k, mode) {
      case Some((error, point)) =>
        SendAnswers(n, id, MsgReply, src, dest, mode, 0, CreateErrorCode(0, error, point));
      case None => InstallAnswers(n, k, id, src, dest, mode, delay, found, now);
    }
  }

  lemma ReplyAtProxyAnswers(n: Node, k: Tuple, c: Connection, dest: BdId, mode: bv32, delay: int, status: bv32,
                            now: int)
    ensures AnswersOnce(n, ReplyAtProxy(n, k, c, dest, mode, delay, status, now).0)
  {
    if status != ANSWER_OKAY || c.state != WaitingReply {
      var err := if status == ANSWER_OKAY then CreateErrorCode(0, ERROR_PROTOCOL, c.point) else status;
      SendAnswers(n, c.srcId, MsgReply, c.srcConnAddr, c.destConnAddr, mode, 0, err);
    }
  }

  lemma RecvReplyAnswers(n: Node, id: BdId, src: BdId, dest: BdId, mode: bv32, delay: int, status: bv32, now: int)
    ensures AnswersOnce(n, RecvReply(n, id, src, dest, mode, delay, status, now).0)
  {
    var k := KeyBySender(n.own, id, src, dest);
    if k in n.conns {
      var c := n.conns[k];
      if c.point.MidPoint? {
        ReplyAtProxyAnswers(n, k, c, dest, mode, delay, status, now);
      } else {
        var err := if status != ANSWER_OKAY && c.point.StartPoint? then status
                   else CreateErrorCode(0, ERROR_PROTOCOL, c.point);
        CallbackKeepsTable(n, Callback(c.srcId, c.proxyId, c.destId, c.mode, c.point, 0, CbFailed, err), now);
      }
    }
  }

  lemma RecvStartAnswers(n: Node, id: BdId, src: BdId, dest: BdId, mode: bv32, param: int, now: int)
    ensures AnswersOnce(n, RecvStart(n, id, src, dest, mode, param, now).0)
  {
    var k := KeyBySender(n.own, id, src, dest);
    if k in n.conns && (n.conns[k].state == WaitingStart || n.conns[k].state == Completed) {
      RecvStartTable(n, id, src, dest, mode, param, now);
      SendAnswers(n, id, MsgAck, n.conns[k].srcId, n.conns[k].destId, mode, 0, ANSWER_OKAY);
    }
  }

  lemma ReceiveAnswers(n: Node, id: BdId, msg: ConnectMsg, found: Option<BdId>, now: int)
    ensures AnswersOnce(n, Receive(n, id, msg, found, now))
  {
    match msg.kind {
      case MsgRequest => RecvRequestAnswers(n, id, msg.src, msg.dest, msg.mode, msg.param, found, now);
      case MsgReply => RecvReplyAnswers(n, id, msg.src, msg.dest, msg.mode, msg.param, msg.status, now);
      case MsgStart => RecvStartAnswers(n, id, msg.src, msg.dest, msg.mode, msg.param, now);
      case MsgAck => RecvAckTable(n, id, msg.src, msg.dest, now);
    }
  }

  lemma TickRequestAnswers(n: Node, t: NodeId, now: int)
    requires t in n.reqs
    ensures AnswersOnce(n, TickRequest(n, t, now).0)
  {
    var r := n.reqs[t];
    if r.state == Ready && r.goodProxies != [] {
      var n1, delay := StartRequestSteps(n, t, now);
      StartAttemptAnswers(n1, r.goodProxies[0].id, BdId(n.own, r.localAddr), BdId(r.target, NO_ADDR), r.mode,
                          delay, now);
    }
  }

  lemma StartAttemptAnswers(n: Node, proxy: BdId, src: BdId, dest: BdId, mode: bv32, delay: int, now: int)
    ensures AnswersOnce(n, StartAttempt(n, proxy, src, dest, mode, delay, now).0)
  {
    var c := if mode == MODE_DIRECT then ConnectionSetupDirect(proxy, src, now)
             else ConnectionSetup(proxy, src, dest, mode, delay, now);
    SendAnswers(n, c.proxyId, MsgRequest, c.srcConnAddr, c.destConnAddr, c.mode, c.maxDelay, ANSWER_OKAY);
  }

  lemma {:induction false} VisitRequestsNoStart(n: Node, ts: seq<NodeId>, now: int)
    requires forall t :: t in ts ==> t in n.reqs
    ensures Starts(VisitRequests(n, ts, now).0.sent) == Starts(n.sent)
  {
    if ts != [] {
      var last := |ts| - 1;
      VisitRequestsNoStart(n, ts[..last], now);
      var m := VisitRequests(n, ts[..last], now).0;
      TickRequestAnswers(m, ts[last], now);
      AnswersNoStart(m, TickRequest(m, ts[last], now).0);
    }
  }

  /** START goes out in the sweeps of the table, once per entry in the round that is due to it, and at no other time. */
  lemma OnlySweepsStart(n: Node, a: Action)
    requires CanAct(n, a)
    ensures if a.TickTable? then Act(n, a).sent == n.sent + SweepRounds(n.own, n.conns, a.keys, a.now)
            else Starts(Act(n, a).sent) == Starts(n.sent)
  {
    match a {
      case TickTable(_, keys, now) => TickConnsSends(n, keys, now);
      case TickReqs(_, targets, now) => VisitRequestsNoStart(n, targets, now);
      case Deliver(pkt, addr, found, now) =>
        ReceiveAnswers(n, BdId(pkt.from, addr), pkt.msg, found, now);
        AnswersNoStart(n, Act(n, a));
      case Authorise(_, src, proxy, dest, bandwidth, delay, now) =>
        var (mode, loc) := Echo(n, AuthKey(a));
        AuthOkAnswers(n, src, proxy, dest, mode, loc, bandwidth, delay, now);
        AnswersNoStart(n, Act(n, a));
      case Refuse(_, src, proxy, dest, err) =>
        var (mode, loc) := Echo(n, AuthKey(a));
        AuthNoAnswers(n, src, proxy, dest, mode, loc, err);
        AnswersNoStart(n, Act(n, a));
      case _ =>
    }
  }

  /** The START packets that went to the two sides of an entry. */
  datatype StartLog = StartLog(src: seq<Packet>, dest: seq<Packet>)

  /** What one action sends to the sides of an entry. */
  ghost function Logged(log: StartLog, own: NodeId, c: Connection, a: Action): StartLog {
    if !a.TickTable? then log
    else StartLog(log.src + StartDue(own, c, c.srcId, c.srcAck, a.now),
                  log.dest + StartDue(own, c, c.destId, c.destAck, a.now))
  }

  /** The START packets sent on behalf of the entry under `k` since that entry was created. */
  ghost function StartsFor(s: Clocked, acts: seq<Action>, gap: int, k: Tuple): StartLog {
    if acts == [] then StartLog([], [])
    else
      var last := |acts| - 1;
      var prev := RunClock(s, acts[..last], gap);
      if k !in prev.node.conns || k !in RunClock(s, acts, gap).node.conns then StartLog([], [])
      else if !Timely(prev, acts[last], gap) then StartsFor(s, acts[..last], gap, k)
      else Logged(StartsFor(s, acts[..last], gap, k), prev.node.own, prev.node.conns[k], acts[last])
  }

  /** No side got more packets than the entry counts rounds. */
  predicate LogWithin(log: StartLog, c: Connection) {
    var rounds := if c.state == WaitingAck then c.retryCount else 0;
    |log.src| <= rounds && |log.dest| <= rounds
  }

  lemma SweptEntry(n: Node, a: Action, k: Tuple)
    requires CanAct(n, a) && a.TickTable? && k in n.conns && k in Act(n, a).conns
    ensures !Expired(n.conns[k], a.now) && Act(n, a).conns[k] == Ticked(n.conns[k], a.now)
  {
    TickConnsSweeps(n, a.keys, a.now);
  }

  lemma LoggedWithin(log: StartLog, n: Node, k: Tuple, a: Action, t: int)
    requires CanAct(n, a) && (TimeOf(a).Some? ==> TimeOf(a).value == t)
    requires k in n.conns && k in Act(n, a).conns && LogWithin(log, n.conns[k]) && 0 <= n.conns[k].retryCount
    ensures LogWithin(Logged(log, n.own, n.conns[k], a), Act(n, a).conns[k])
  {
    hide Act, TickConns, CanAct;
    ActMoves(n, a, t);
    if a.TickTable? {
      SweptEntry(n, a, k);
    }
  }

  lemma {:induction false} LogStaysWithin(s: Clocked, acts: seq<Action>, gap: int, k: Tuple)
    requires TableTimed(s, gap) && s.node.conns == map[]
    requires k in RunClock(s, acts, gap).node.conns
    ensures LogWithin(StartsFor(s, acts, gap, k), RunClock(s, acts, gap).node.conns[k])
  {
    if acts != [] {
      var last := |acts| - 1;
      var prev := RunClock(s, acts[..last], gap);
      RunTimed(s, acts[..last], gap);
      RunTimed(s, acts, gap);
      if k in prev.node.conns {
        LogStaysWithin(s, acts[..last], gap, k);
        if Timely(prev, acts[last], gap) {
          LoggedWithin(StartsFor(s, acts[..last], gap, k), prev.node, k, acts[last],
                       RunClock(s, acts, gap).now);
        }
      }
    }
  }

  /** In every run at most START_MAX_RETRY + 1 STARTs go to each side of a connection. */
  lemma StartsBounded(s: Clocked, acts: seq<Action>, gap: int, k: Tuple)
    requires s.node.conns == map[] && s.lastTick == s.now && gap >= 0
    requires k in RunClock(s, acts, gap).node.conns
    ensures |StartsFor(s, acts, gap, k).src| <= START_MAX_RETRY + 1
    ensures |StartsFor(s, acts, gap, k).dest| <= START_MAX_RETRY + 1
  {
    LogStaysWithin(s, acts, gap, k);
    RunTimed(s, acts, gap);
  }

  /** The entry under `k` is there, without a break, from the `first`-th action of the run on. */
  ghost predicate Stays(s: Clocked, acts: seq<Action>, gap: int, k: Tuple, first: nat) {
    && first <= |acts| && k in RunClock(s, acts, gap).node.conns
    && (first < |acts| ==> Stays(s, acts[..|acts| - 1], gap, k, first))
  }

  /** What an acknowledgement leaves in the entry. */
  predicate Heard(c: Connection, d: Connection) {
    && c.state == WaitingAck ==> d.state == WaitingAck && (c.srcAck ==> d.srcAck) && (c.destAck ==> d.destAck)
  }

  lemma StaysHeard(n: Node, a: Action, t: int, k: Tuple)
    requires CanAct(n, a) && (TimeOf(a).Some? ==> TimeOf(a).value == t)
    requires k in n.conns && k in Act(n, a).conns
    ensures Heard(n.conns[k], Act(n, a).conns[k])
  {
    hide Act, CanAct;
    ActMoves(n, a, t);
  }

  /** Once a side's acknowledgement is noted, no START goes to this side any more. */
  lemma {:induction false} SilentOnceHeard(s: Clocked, acts: seq<Action>, gap: int, k: Tuple, first: nat)
    requires Stays(s, acts, gap, k, first)
    requires var e := RunClock(s, acts[..first], gap).node; k in e.conns && e.conns[k].state == WaitingAck
    ensures var c, d := RunClock(s, acts[..first], gap).node.conns[k], RunClock(s, acts, gap).node.conns[k];
            var was, log := StartsFor(s, acts[..first], gap, k), StartsFor(s, acts, gap, k);
            && Heard(c, d) && (c.srcAck ==> log.src == was.src) && (c.destAck ==> log.dest == was.dest)
  {
    hide Act, CanAct, Due, Expired;
    var last := |acts| - 1;
    if first == |acts| {
      assert acts[..first] == acts;
    } else {
      assert acts[..last][..first] == acts[..first];
      SilentOnceHeard(s, acts[..last], gap, k, first);
      var prev := RunClock(s, acts[..last], gap);
      if Timely(prev, acts[last], gap) {
        StaysHeard(prev.node, acts[last], RunClock(s, acts, gap).now, k);
      }
    }
  }
}
