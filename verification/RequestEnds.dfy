/**
 * The end of a request for a connection.  A request that has ended makes no
 * attempt any more, provided that it left none open: an open attempt that fails
 * late brings its request back.
 */
module RequestEnds {
  import opened Collections
  import opened Ids
  import opened ConnectTypes
  import opened ConnectSpec
  import opened Handshake
  import opened HandshakeRuns
  import opened ConnectionTable
  import opened RequestRuns
  import opened AttemptBound
  import opened Refusals

  /** Neither under way nor about to be: it has ended, or the connection is made. */
  predicate Over(r: Request) {
    r.state == Done || r.state == ExtConnect
  }

  /** The request for `t`, if there is one, is over, and no attempt to reach `t` is open. */
  ghost predicate AtRest(n: Node, t: NodeId) {
    Open(n, t) == {} && (t in n.reqs ==> Over(n.reqs[t]))
  }

  ghost predicate RequestAtRest(m: Node, t: NodeId) {
    t in m.reqs ==> Over(m.reqs[t])
  }

  // ------------------------------------------------------ messages and upcalls

  lemma CallbackStaysOver(n: Node, cb: Callback, now: int, t: NodeId)
    requires RequestAtRest(n, t) && !(cb.kind == CbFailed && cb.point == StartPoint && cb.dest.id == t)
    ensures RequestAtRest(CallbackRequest(n, cb, now), t)
  {
    hide FailRequest;
  }

  lemma FailStaysOver(n: Node, c: Connection, status: bv32, now: int, t: NodeId)
    requires RequestAtRest(n, t) && !(c.point == StartPoint && c.destId.id == t)
    ensures RequestAtRest(FailAtEnd(n, c, status, now), t)
  {
    hide CallbackRequest, CreateErrorCode, Over;
    var err := if status != ANSWER_OKAY && c.point.StartPoint? then status
               else CreateErrorCode(0, ERROR_PROTOCOL, c.point);
    if c.point == StartPoint {
      CallbackStaysOver(n, Callback(c.srcId, c.proxyId, c.destId, c.mode, c.point, 0, CbFailed, err), now, t);
    }
  }

  lemma ReplyStaysOver(n: Node, id: BdId, msg: ConnectMsg, now: int, t: NodeId)
    requires AtRest(n, t)
    ensures RequestAtRest(RecvReply(n, id, msg.src, msg.dest, msg.mode, msg.param, msg.status, now).0, t)
  {
    hide FailAtEnd, ReplyAtProxy, Over;
    var k := KeyBySender(n.own, id, msg.src, msg.dest);
    if k in n.conns && n.conns[k].point != MidPoint {
      assert k !in Open(n, t);
      FailStaysOver(n, n.conns[k], msg.status, now, t);
    }
  }

  lemma StartStaysOver(n: Node, id: BdId, msg: ConnectMsg, now: int, t: NodeId)
    requires AtRest(n, t)
    ensures RequestAtRest(RecvStart(n, id, msg.src, msg.dest, msg.mode, msg.param, now).0, t)
  {
    hide CallbackRequest, CompleteConnection, Over;
    var k := KeyBySender(n.own, id, msg.src, msg.dest);
    if k in n.conns && n.conns[k].state == WaitingStart {
      var c := n.conns[k];
      var relay := c.mode == MODE_RELAY;
      var d := CompleteConnection(c, msg.src, msg.dest, if relay then msg.param else 0,
                                  if relay then 0 else msg.param, now);
      var n1 := n.Send(id, MsgAck, c.srcId, c.destId, msg.mode, 0, ANSWER_OKAY).(conns := n.conns[k := d]);
      CallbackStaysOver(n1, Callback(d.srcConnAddr, d.proxyId, d.destConnAddr, d.mode, d.point, msg.param, CbStart, 0),
                        now, t);
    }
  }

  lemma AckStaysOver(n: Node, id: BdId, msg: ConnectMsg, now: int, t: NodeId)
    requires AtRest(n, t)
    ensures RequestAtRest(RecvAck(n, id, msg.src, msg.dest, now).0, t)
  {
    hide CallbackRequest, Acknowledge, Over;
    var k := KeyBySender(n.own, id, msg.src, msg.dest);
    if k in n.conns {
      var a := Acknowledge(n.conns[k], id.id, msg.src.id, msg.dest.id);
      CallbackStaysOver(n, Callback(a.srcConnAddr, a.proxyId, a.destId, a.mode, a.point, 0, CbStart, 0), now, t);
    }
  }

  /** No message opens an attempt, and none brings a request back that has no attempt open. */
  lemma ReceiveAtRest(n: Node, id: BdId, msg: ConnectMsg, found: Option<BdId>, now: int, t: NodeId)
    requires AtRest(n, t)
    ensures AtRest(Receive(n, id, msg, found, now), t)
  {
    hide RecvRequest, RecvReply, RecvStart, RecvAck, Over;
    var m := Receive(n, id, msg, found, now);
    ReceiveMoves(n, id, msg, found, now);
    ReceiveNoAttempt(n, id, msg, found, now);
    OpenShrinks(n, m, t, now);
    match msg.kind {
      case MsgRequest => RequestIsStep(n, id, msg, found, now);
      case MsgReply => ReplyStaysOver(n, id, msg, now, t);
      case MsgStart => StartStaysOver(n, id, msg, now, t);
      case MsgAck => AckStaysOver(n, id, msg, now, t);
    }
  }

  // ----------------------------------------------------------------- the timer

  lemma TickAtRest(n: Node, u: NodeId, now: int, t: NodeId)
    requires u in n.reqs && Targets(n) && AtRest(n, t)
    ensures var m := TickRequest(n, u, now).0; Targets(m) && AtRest(m, t)
  {
    hide StartRequest, Opens;
    TickOpens(n, u, now);
    var m := TickRequest(n, u, now).0;
    if m.conns != n.conns {
      var k, c :| Opens(n, m, k, c, u);
      OtherOpens(n, m, k, c, u, t);
    }
  }

  lemma OtherOpens(n: Node, m: Node, k: Tuple, c: Connection, u: NodeId, t: NodeId)
    requires Opens(n, m, k, c, u) && u != t
    ensures Open(m, t) <= Open(n, t)
  {
  }

  lemma {:induction false} VisitAtRest(n: Node, ts: seq<NodeId>, now: int, t: NodeId)
    requires (forall u :: u in ts ==> u in n.reqs) && Targets(n) && AtRest(n, t)
    ensures var m := VisitRequests(n, ts, now).0; Targets(m) && AtRest(m, t)
  {
    hide TickRequest, AtRest, Targets;
    if ts != [] {
      var last := |ts| - 1;
      VisitAtRest(n, ts[..last], now, t);
      TickAtRest(VisitRequests(n, ts[..last], now).0, ts[last], now, t);
    }
  }

  // --------------------------------------------------------------- any action

  predicate AsksFor(a: Action, t: NodeId) {
    a.Ask? && a.target == t
  }

  lemma EditAtRest(n: Node, a: Action, t: NodeId)
    requires IsEdit(a) && AtRest(n, t) && !AsksFor(a, t)
    ensures AtRest(Act(n, a), t)
  {
    EditFrame(n, a);
    if a.Hear? && t in n.reqs {
      EditKeepsState(n.reqs[t], a.id);
    } else if a.Learn? && a.target in n.reqs {
      EditKeepsState(n.reqs[a.target], a.id);
    }
    hide CheckGoodProxy, AddGoodProxy;
    assert Open(Act(n, a), t) <= Open(n, t);
  }

  lemma EditKeepsState(r: Request, id: BdId)
    ensures AddGoodProxy(r, id).state == r.state && CheckGoodProxy(r, id).state == r.state
  {
  }

  /** Nothing but a new request of the user gets a target out of its rest. */
  lemma ActAtRest(n: Node, a: Action, t: NodeId)
    requires CanAct(n, a) && Targets(n) && AtRest(n, t) && !AsksFor(a, t)
    ensures AtRest(Act(n, a), t)
  {
    hide Over;
    if a.Deliver? {
      ReceiveAtRest(n, BdId(a.pkt.from, a.addr), a.pkt.msg, a.found, a.now, t);
    } else if a.TickReqs? {
      VisitAtRest(n, a.targets, a.now, t);
      assert Open(Act(n, a), t) == Open(VisitRequests(n, a.targets, a.now).0, t);
    } else if a.TickTable? {
      VisitConnsRequests(n, a.keys, a.now);
      TickConnsMoves(n, a.keys, a.now);
      OpenShrinks(n, Act(n, a), t, a.now);
    } else if a.Authorise? || a.Refuse? {
      DecisionIsStep(n, a);
      var now := if a.Authorise? then a.now else 0;
      ActMoves(n, a, now);
      DecisionNoAttempt(n, a);
      OpenShrinks(n, Act(n, a), t, now);
    } else {
      EditAtRest(n, a, t);
    }
  }

  /** The user of node `i` does not ask for `t` in this run. */
  predicate NeverAsks(acts: seq<Action>, i: NodeId, t: NodeId) {
    forall j :: 0 <= j < |acts| ==> !(acts[j].Ask? && acts[j].at == i && acts[j].target == t)
  }

  /** A target at rest stays at rest in every run in which the user does not ask for it again. */
  lemma {:induction false} StaysAtRest(net: Net, acts: seq<Action>, i: NodeId, t: NodeId)
    requires i in net.nodes && Targets(net.nodes[i]) && AtRest(net.nodes[i], t) && NeverAsks(acts, i, t)
    ensures Targets(Run(net, acts).nodes[i]) && AtRest(Run(net, acts).nodes[i], t)
  {
    hide Act, AtRest, Targets, CanAct;
    if acts != [] {
      var last := |acts| - 1;
      StaysAtRest(net, acts[..last], i, t);
      var prev, a := Run(net, acts[..last]), acts[last];
      if Enabled(prev, a) && Where(a) == i {
        ActTargets(prev.nodes[i], a);
        ActAtRest(prev.nodes[i], a, t);
      }
    }
  }

  // ------------------------------------------------------- denied once and for all

  /**
   * A denial by the destination that reaches the only open attempt ends the
   * request, and no later attempt is started unless the user asks again.
   */
  lemma DeniedForGood(net: Net, c: Action, k: Tuple, err: bv32, acts: seq<Action>)
    requires Inv(net) && Enabled(net, c) && c.Deliver? && c.pkt.msg.kind == MsgReply && c.pkt.msg.status != 0
    requires c.pkt.to.id == k.src && c.pkt.from == k.proxy && c.pkt.msg.src.id == k.src && c.pkt.msg.dest.id == k.dest
    requires HoldsEntry(net, k.src, k) && Open(net.nodes[k.src], k.dest) == {k}
    requires StatusSays(c.pkt.msg.status, err, 9, EndPoint) && (err & 0xffff == 0 || err & 0xffff == 9)
    requires NeverAsks(acts, k.src, k.dest)
    ensures var m := Apply(net, c).nodes[k.src];
            m.reqs.Keys == net.nodes[k.src].reqs.Keys && (k.dest in m.reqs ==> m.reqs[k.dest].state == Done)
    ensures AtRest(Run(Apply(net, c), acts).nodes[k.src], k.dest)
  {
    hide Apply, StatusSays, FailedAs, GoesOn, NodeOk, Targets;
    SourceLearns(net, c, k);
    SourceSettles(net, c, k, err, EndPoint);
    var n, m := net.nodes[k.src], Apply(net, c).nodes[k.src];
    OnlyOneEnds(n, m, k);
    TargetsOfInv(net, k.src);
    assert c.pkt.to.id == k.src;
    DeliverTargets(net, c, k.src);
    StaysAtRest(Apply(net, c), acts, k.src, k.dest);
  }

  lemma OnlyOneEnds(n: Node, m: Node, k: Tuple)
    requires m.conns == n.conns - {k} && Open(n, k.dest) == {k}
    ensures Open(m, k.dest) == {}
  {
    assert Open(m, k.dest) <= Open(n, k.dest) - {k};
  }

  lemma TargetsOfInv(net: Net, i: NodeId)
    requires Inv(net) && i in net.nodes
    ensures Targets(net.nodes[i])
  {
    hide SentOk, TableOk;
    assert NodeOk(net.facts, net.nodes[i]);
  }

  lemma DeliverTargets(net: Net, c: Action, i: NodeId)
    requires Enabled(net, c) && i in net.nodes && Targets(net.nodes[i])
    ensures Targets(Apply(net, c).nodes[i])
  {
    hide Act, Targets;
    if Where(c) == i {
      ActTargets(net.nodes[i], c);
    }
  }

  /** This message gets the request for `t` going again. */
  ghost predicate Revives(n: Node, id: BdId, msg: ConnectMsg, found: Option<BdId>, now: int, t: NodeId) {
    var m := Receive(n, id, msg, found, now);
    t in m.reqs && !Over(m.reqs[t])
  }

  /** The answer of a relay that has no room. */
  function NoRoom(k: Tuple): ConnectMsg {
    ConnectMsg(MsgReply, BdId(k.src, NO_ADDR), BdId(k.dest, NO_ADDR), 4, 0, 0x2_0008)
  }

  lemma OpenIsRevived(f: Facts, n: Node, k: Tuple, t: NodeId)
    requires k in Open(n, t) && ConnOk(f, n.own, k, n.conns[k]) && t in n.reqs
    ensures Revives(n, BdId(k.proxy, NO_ADDR), NoRoom(k), None, 0, t)
  {
    hide Receive, FailedAs;
    RefusedAtSource(f, n, k, BdId(k.proxy, NO_ADDR), NoRoom(k), None, 0);
    var m := Receive(n, BdId(k.proxy, NO_ADDR), NoRoom(k), None, 0);
    NoRoomGoesOn(n.reqs[t], m.reqs[t], n.conns[k].mode);
  }

  lemma NoRoomGoesOn(r: Request, r': Request, mode: bv32)
    requires FailedAs(r, r', mode, 0x2_0008, 0)
    ensures !Over(r')
  {
  }

  /** A request that is over can be brought back by a message exactly if an attempt to its target is still open. */
  lemma RevivedExactly(f: Facts, n: Node, t: NodeId)
    requires NodeOk(f, n) && t in n.reqs && Over(n.reqs[t])
    ensures (exists id, msg, found, now :: Revives(n, id, msg, found, now, t)) <==> Open(n, t) != {}
  {
    hide NodeOk, ConnOk, Revives, Over;
    if Open(n, t) == {} {
      forall id, msg, found, now
        ensures !Revives(n, id, msg, found, now, t)
      {
        NotRevived(n, id, msg, found, now, t);
      }
    } else {
      var k :| k in Open(n, t);
      EntryOk(f, n, k);
      OpenIsRevived(f, n, k, t);
    }
  }

  lemma NotRevived(n: Node, id: BdId, msg: ConnectMsg, found: Option<BdId>, now: int, t: NodeId)
    requires AtRest(n, t)
    ensures !Revives(n, id, msg, found, now, t)
  {
    hide Receive;
    ReceiveAtRest(n, id, msg, found, now, t);
  }
}
