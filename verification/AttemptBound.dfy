/**
 * How often a connection request can try, in every run of the network.  An
 * attempt that fails is an entry of the table that goes, so a request recycles
 * no more proxies than it made attempts, up to attempts it found already open.
 */
module AttemptBound {
  import opened Collections
  import opened Ids
  import opened ConnectTypes
  import opened ConnectSpec
  import opened Handshake
  import opened HandshakeRuns
  import opened ConnectionTable
  import opened RequestRuns

  /** The entries of the attempts to reach `t` that have not ended yet. */
  function Open(n: Node, t: NodeId): set<Tuple> {
    set k | k in n.conns && n.conns[k].point == StartPoint && n.conns[k].destId.id == t
  }

  ghost predicate Targets(n: Node) {
    forall u :: u in n.reqs ==> n.reqs[u].target == u
  }

  /** What happens to the request for `t` recycles no more than it opens or closes. */
  ghost predicate Pays(n: Node, m: Node, t: NodeId)
    requires t in n.reqs && t in m.reqs
  {
    m.reqs[t].recycled + |Open(m, t)|
    <= n.reqs[t].recycled + |Open(n, t)| + if Attempts(n.reqs[t], m.reqs[t]) then 1 else 0
  }

  // ------------------------------------------------------- the open attempts

  ghost predicate NoNewAttempt(n: Node, m: Node) {
    forall k :: k in m.conns && k !in n.conns ==> m.conns[k].point != StartPoint
  }

  lemma OpenShrinks(n: Node, m: Node, t: NodeId, now: int)
    requires Moves(n, m, now) && NoNewAttempt(n, m)
    ensures Open(m, t) <= Open(n, t) && |Open(m, t)| <= |Open(n, t)|
  {
    forall k | k in Open(m, t)
      ensures k in Open(n, t)
    {
      assert Evolves(n.conns[k], m.conns[k], now);
    }
    SubsetSize(Open(m, t), Open(n, t));
  }

  lemma InstallNoAttempt(n: Node, k: Tuple, id: BdId, src: BdId, dest: BdId, mode: bv32, delay: int,
                         found: Option<BdId>, now: int)
    requires k !in n.conns
    ensures NoNewAttempt(n, InstallRequested(n, k, id, src, dest, mode, delay, found, now))
  {
    hide AuthOk;
    if mode != MODE_DIRECT && src.id == id.id && found.Some? {
      var c := ConnectionRequestProxy(id, src, n.own, found.value, mode, delay, now);
      AuthOkMoves(n.(conns := n.conns[k := c]), c.srcId, c.proxyId, c.destId, c.mode, c.point, 0, 0, now);
    }
  }

  lemma ReceiveNoAttempt(n: Node, id: BdId, msg: ConnectMsg, found: Option<BdId>, now: int)
    ensures NoNewAttempt(n, Receive(n, id, msg, found, now))
  {
    match msg.kind {
      case MsgRequest =>
        var k := KeyBySender(n.own, id, msg.src, msg.dest);
        if Objection(n, k, msg.mode).None? {
          InstallNoAttempt(n, k, id, msg.src, msg.dest, msg.mode, msg.param, found, now);
        }
      case MsgReply => RecvReplyMoves(n, id, msg.src, msg.dest, msg.mode, msg.param, msg.status, now);
      case MsgStart => RecvStartMoves(n, id, msg.src, msg.dest, msg.mode, msg.param, now);
      case MsgAck => RecvAckMoves(n, id, msg.src, msg.dest, now);
    }
  }

  // -------------------------------------------------------- messages recycle

  lemma CallbackRecycles(n: Node, cb: Callback, now: int, t: NodeId)
    requires t in n.reqs
    ensures var m := CallbackRequest(n, cb, now);
            && t in m.reqs
            && m.reqs[t].recycled <= n.reqs[t].recycled
               + if cb.point == StartPoint && cb.kind == CbFailed && cb.dest.id == t then 1 else 0
  {
    FailKeeps(n.reqs[t], cb.mode, cb.err, now);
  }

  lemma FailRecycles(n: Node, c: Connection, status: bv32, now: int, t: NodeId)
    requires t in n.reqs
    ensures var m := FailAtEnd(n, c, status, now);
            && m.conns == n.conns && t in m.reqs
            && m.reqs[t].recycled <= n.reqs[t].recycled + if c.point == StartPoint && c.destId.id == t then 1 else 0
  {
    var err := if status != ANSWER_OKAY && c.point.StartPoint? then status
               else CreateErrorCode(0, ERROR_PROTOCOL, c.point);
    var cb := Callback(c.srcId, c.proxyId, c.destId, c.mode, c.point, 0, CbFailed, err);
    CallbackRecycles(n, cb, now, t);
    CallbackKeepsTable(n, cb, now);
  }

  /** A reply at an end takes the entry away; it recycles only if that is an attempt to reach `t`. */
  lemma ReplyRecycles(n: Node, id: BdId, msg: ConnectMsg, now: int, t: NodeId)
    requires t in n.reqs
    ensures var k := KeyBySender(n.own, id, msg.src, msg.dest);
            var m := RecvReply(n, id, msg.src, msg.dest, msg.mode, msg.param, msg.status, now).0;
            && t in m.reqs
            && if k in Open(n, t) then m.reqs[t].recycled <= n.reqs[t].recycled + 1 && k !in m.conns
               else m.reqs[t].recycled <= n.reqs[t].recycled
  {
    hide FailAtEnd, ReplyAtProxy;
    var k := KeyBySender(n.own, id, msg.src, msg.dest);
    if k in n.conns {
      FailRecycles(n, n.conns[k], msg.status, now, t);
    }
  }

  /** A reply that recycles a proxy removes the entry of an attempt. */
  lemma ReplyPays(n: Node, id: BdId, msg: ConnectMsg, now: int, t: NodeId)
    requires t in n.reqs
    ensures var m := RecvReply(n, id, msg.src, msg.dest, msg.mode, msg.param, msg.status, now).0;
            t in m.reqs && m.reqs[t].recycled + |Open(m, t)| <= n.reqs[t].recycled + |Open(n, t)|
  {
    hide RecvReply;
    var k := KeyBySender(n.own, id, msg.src, msg.dest);
    var m := RecvReply(n, id, msg.src, msg.dest, msg.mode, msg.param, msg.status, now).0;
    ReplyRecycles(n, id, msg, now, t);
    RecvReplyMoves(n, id, msg.src, msg.dest, msg.mode, msg.param, msg.status, now);
    OpenShrinks(n, m, t, now);
    if k in Open(n, t) {
      EndedLess(n, m, k, t);
    }
  }

  lemma EndedLess(n: Node, m: Node, k: Tuple, t: NodeId)
    requires k in Open(n, t) && k !in m.conns && Open(m, t) <= Open(n, t)
    ensures |Open(m, t)| < |Open(n, t)|
  {
    SubsetSize(Open(m, t), Open(n, t) - {k});
  }

  lemma StartRecycles(n: Node, id: BdId, msg: ConnectMsg, now: int, t: NodeId)
    requires t in n.reqs
    ensures var m := RecvStart(n, id, msg.src, msg.dest, msg.mode, msg.param, now).0;
            t in m.reqs && m.reqs[t].recycled <= n.reqs[t].recycled
  {
    var k := KeyBySender(n.own, id, msg.src, msg.dest);
    if k in n.conns && n.conns[k].state == WaitingStart {
      var c := n.conns[k];
      var relay := c.mode == MODE_RELAY;
      var d := CompleteConnection(c, msg.src, msg.dest, if relay then msg.param else 0,
                                  if relay then 0 else msg.param, now);
      var n1 := n.Send(id, MsgAck, c.srcId, c.destId, msg.mode, 0, ANSWER_OKAY).(conns := n.conns[k := d]);
      CallbackRecycles(n1, Callback(d.srcConnAddr, d.proxyId, d.destConnAddr, d.mode, d.point, msg.param, CbStart, 0),
                       now, t);
    }
  }

  lemma AckRecycles(n: Node, id: BdId, msg: ConnectMsg, now: int, t: NodeId)
    requires t in n.reqs
    ensures var m := RecvAck(n, id, msg.src, msg.dest, now).0;
            t in m.reqs && m.reqs[t].recycled <= n.reqs[t].recycled
  {
    var k := KeyBySender(n.own, id, msg.src, msg.dest);
    if k in n.conns {
      var a := Acknowledge(n.conns[k], id.id, msg.src.id, msg.dest.id);
      CallbackRecycles(n, Callback(a.srcConnAddr, a.proxyId, a.destId, a.mode, a.point, 0, CbStart, 0), now, t);
    }
  }

  lemma ReceivePays(n: Node, id: BdId, msg: ConnectMsg, found: Option<BdId>, now: int, t: NodeId)
    requires t in n.reqs
    ensures var m := Receive(n, id, msg, found, now);
            t in m.reqs && m.reqs[t].recycled + |Open(m, t)| <= n.reqs[t].recycled + |Open(n, t)|
  {
    ReceiveMoves(n, id, msg, found, now);
    ReceiveNoAttempt(n, id, msg, found, now);
    OpenShrinks(n, Receive(n, id, msg, found, now), t, now);
    match msg.kind {
      case MsgRequest => RequestIsStep(n, id, msg, found, now);
      case MsgReply => ReplyPays(n, id, msg, now, t);
      case MsgStart => StartRecycles(n, id, msg, now, t);
      case MsgAck => AckRecycles(n, id, msg, now, t);
    }
  }

  // ---------------------------------------------------------- the timer opens

  /** One entry more (or another in the place of one), of an attempt to reach `u`. */
  ghost predicate Opens(n: Node, m: Node, k: Tuple, c: Connection, u: NodeId) {
    c.destId.id == u && m.conns == n.conns[k := c]
  }

  /** The timer opens an attempt for a request only by taking one of its proxies. */
  lemma TickOpens(n: Node, u: NodeId, now: int)
    requires u in n.reqs && n.reqs[u].target == u
    ensures var m := TickRequest(n, u, now).0;
            && m.reqs == n.reqs[u := m.reqs[u]]
            && m.reqs[u].target == u && m.reqs[u].recycled == n.reqs[u].recycled
            && (m.conns == n.conns
                || (Attempts(n.reqs[u], m.reqs[u]) && exists k, c :: Opens(n, m, k, c, u)))
  {
    hide StartRequest, AgeRequest, Opens;
    var r := n.reqs[u];
    AgeKeeps(r, now);
    if r.state == Ready {
      StartOpens(n, u, now);
      var s, m := StartRequest(n, u, now).0, TickRequest(n, u, now).0;
      if s.conns != n.conns {
        var k, c :| Opens(n, s, k, c, u);
        SameOpens(n, s, m, k, c, u);
      }
    }
  }

  lemma AgeKeeps(r: Request, now: int)
    ensures AgeRequest(r, now).recycled == r.recycled && AgeRequest(r, now).target == r.target
  {
  }

  lemma SameOpens(n: Node, s: Node, m: Node, k: Tuple, c: Connection, u: NodeId)
    requires Opens(n, s, k, c, u) && m.conns == s.conns
    ensures Opens(n, m, k, c, u)
  {
  }

  lemma StartOpens(n: Node, u: NodeId, now: int)
    requires u in n.reqs && n.reqs[u].target == u
    ensures var m := StartRequest(n, u, now).0;
            && u in m.reqs && m.reqs == n.reqs[u := m.reqs[u]]
            && m.reqs[u].target == u && m.reqs[u].recycled == n.reqs[u].recycled
            && (m.conns == n.conns
                || (Attempts(n.reqs[u], m.reqs[u]) && exists k, c :: Opens(n, m, k, c, u)))
  {
    hide StartAttempt;
    var r := n.reqs[u];
    if r.goodProxies != [] {
      var n1, delay := StartRequestSteps(n, u, now);
      var proxy := r.goodProxies[0].id;
      if (r.mode == MODE_DIRECT) == (u == proxy.id) {
        AttemptOpens(n1, proxy, BdId(n.own, r.localAddr), BdId(u, NO_ADDR), r.mode, delay, now);
        var m := StartRequest(n, u, now).0;
        if m.conns != n.conns {
          var k, c :| Opens(n1, m, k, c, u);
          assert Opens(n, m, k, c, u);
        }
      }
    }
  }

  lemma AttemptOpens(n: Node, proxy: BdId, src: BdId, dest: BdId, mode: bv32, delay: int, now: int)
    requires mode == MODE_DIRECT <==> dest.id == proxy.id
    ensures var m := StartAttempt(n, proxy, src, dest, mode, delay, now).0;
            && m.reqs == n.reqs
            && (m.conns == n.conns || exists k, c :: Opens(n, m, k, c, dest.id))
  {
    var k := KeyBySender(n.own, proxy, src, dest);
    var c := if mode == MODE_DIRECT then ConnectionSetupDirect(proxy, src, now)
             else ConnectionSetup(proxy, src, dest, mode, delay, now);
    var m := StartAttempt(n, proxy, src, dest, mode, delay, now).0;
    assert m.conns == n.conns || Opens(n, m, k, c, dest.id);
  }

  lemma OpenOneMore(n: Node, m: Node, k: Tuple, c: Connection, u: NodeId, t: NodeId)
    requires Opens(n, m, k, c, u)
    ensures |Open(m, t)| <= |Open(n, t)| + if u == t then 1 else 0
  {
    if u == t {
      SubsetSize(Open(m, t), Open(n, t) + {k});
    } else {
      SubsetSize(Open(m, t), Open(n, t));
    }
  }

  lemma TickPays(n: Node, u: NodeId, now: int, t: NodeId)
    requires u in n.reqs && t in n.reqs && Targets(n)
    ensures var m := TickRequest(n, u, now).0; t in m.reqs && Targets(m) && Pays(n, m, t)
    ensures u != t ==> TickRequest(n, u, now).0.reqs[t] == n.reqs[t]
  {
    TickOpens(n, u, now);
    var m := TickRequest(n, u, now).0;
    if m.conns != n.conns {
      var k, c :| Opens(n, m, k, c, u);
      OpenOneMore(n, m, k, c, u, t);
    } else {
      assert Open(m, t) == Open(n, t);
    }
  }

  lemma {:induction false} VisitPays(n: Node, ts: seq<NodeId>, now: int, t: NodeId)
    requires (forall u :: u in ts ==> u in n.reqs) && t in n.reqs && Targets(n)
    requires forall i, j :: 0 <= i < j < |ts| ==> ts[i] != ts[j]
    ensures var m := VisitRequests(n, ts, now).0;
            && Targets(m) && Pays(n, m, t) && (t !in ts ==> m.reqs[t] == n.reqs[t])
  {
    if ts != [] {
      var last := |ts| - 1;
      VisitPays(n, ts[..last], now, t);
      assert ts[last] !in ts[..last];
      TickPays(VisitRequests(n, ts[..last], now).0, ts[last], now, t);
    }
  }

  // --------------------------------------------------------------- any action

  lemma EditPays(n: Node, a: Action, t: NodeId)
    requires CanAct(n, a) && t in n.reqs && t in Act(n, a).reqs
    requires a.Ask? || a.Cancel? || a.Learn? || a.Hear? || a.Configure?
    ensures Act(n, a).reqs[t].recycled == n.reqs[t].recycled && Act(n, a).conns == n.conns
  {
  }

  /** Whatever a node does, it recycles a proxy only as it closes an attempt. */
  lemma ActPays(n: Node, a: Action, t: NodeId)
    requires CanAct(n, a) && Targets(n) && t in n.reqs && t in Act(n, a).reqs
    ensures Pays(n, Act(n, a), t)
  {
    var m := Act(n, a);
    if a.Deliver? {
      ReceivePays(n, BdId(a.pkt.from, a.addr), a.pkt.msg, a.found, a.now, t);
    } else if a.TickReqs? {
      VisitPays(n, a.targets, a.now, t);
      assert Open(m, t) == Open(VisitRequests(n, a.targets, a.now).0, t);
    } else if a.TickTable? {
      VisitConnsRequests(n, a.keys, a.now);
      TickConnsMoves(n, a.keys, a.now);
      OpenShrinks(n, m, t, a.now);
    } else if a.Authorise? || a.Refuse? {
      DecisionIsStep(n, a);
      var now := if a.Authorise? then a.now else 0;
      ActMoves(n, a, now);
      DecisionNoAttempt(n, a);
      OpenShrinks(n, m, t, now);
    } else {
      EditPays(n, a, t);
      assert Open(m, t) == Open(n, t);
    }
  }

  lemma DecisionNoAttempt(n: Node, a: Action)
    requires a.Authorise? || a.Refuse?
    ensures NoNewAttempt(n, Act(n, a))
  {
    if a.Authorise? {
      var (mode, loc) := Echo(n, AuthKey(a));
      AuthOkMoves(n, a.src, a.proxy, a.dest, mode, loc, a.bandwidth, a.delay, a.now);
    }
  }

  // --------------------------------------------------------- where requests are

  lemma CallbackKeys(n: Node, cb: Callback, now: int)
    ensures CallbackRequest(n, cb, now).reqs.Keys == n.reqs.Keys
  {
  }

  lemma ReplyKeys(n: Node, id: BdId, msg: ConnectMsg, now: int)
    ensures RecvReply(n, id, msg.src, msg.dest, msg.mode, msg.param, msg.status, now).0.reqs.Keys == n.reqs.Keys
  {
    hide FailAtEnd, ReplyAtProxy;
    var k := KeyBySender(n.own, id, msg.src, msg.dest);
    if k in n.conns {
      FailKeys(n, n.conns[k], msg.status, now);
    }
  }

  lemma FailKeys(n: Node, c: Connection, status: bv32, now: int)
    ensures FailAtEnd(n, c, status, now).reqs.Keys == n.reqs.Keys
  {
    hide CallbackRequest;
    var err := if status != ANSWER_OKAY && c.point.StartPoint? then status
               else CreateErrorCode(0, ERROR_PROTOCOL, c.point);
    CallbackKeys(n, Callback(c.srcId, c.proxyId, c.destId, c.mode, c.point, 0, CbFailed, err), now);
  }

  lemma StartKeys(n: Node, id: BdId, msg: ConnectMsg, now: int)
    ensures RecvStart(n, id, msg.src, msg.dest, msg.mode, msg.param, now).0.reqs.Keys == n.reqs.Keys
  {
    hide CallbackRequest;
    var k := KeyBySender(n.own, id, msg.src, msg.dest);
    if k in n.conns && n.conns[k].state == WaitingStart {
      var c := n.conns[k];
      var relay := c.mode == MODE_RELAY;
      var d := CompleteConnection(c, msg.src, msg.dest, if relay then msg.param else 0,
                                  if relay then 0 else msg.param, now);
      var n1 := n.Send(id, MsgAck, c.srcId, c.destId, msg.mode, 0, ANSWER_OKAY).(conns := n.conns[k := d]);
      CallbackKeys(n1, Callback(d.srcConnAddr, d.proxyId, d.destConnAddr, d.mode, d.point, msg.param, CbStart, 0), now);
    }
  }

  lemma AckKeys(n: Node, id: BdId, msg: ConnectMsg, now: int)
    ensures RecvAck(n, id, msg.src, msg.dest, now).0.reqs.Keys == n.reqs.Keys
  {
    hide CallbackRequest;
    var k := KeyBySender(n.own, id, msg.src, msg.dest);
    if k in n.conns {
      var a := Acknowledge(n.conns[k], id.id, msg.src.id, msg.dest.id);
      CallbackKeys(n, Callback(a.srcConnAddr, a.proxyId, a.destId, a.mode, a.point, 0, CbStart, 0), now);
    }
  }

  lemma ReceiveKeys(n: Node, id: BdId, msg: ConnectMsg, found: Option<BdId>, now: int)
    ensures Receive(n, id, msg, found, now).reqs.Keys == n.reqs.Keys
  {
    hide RecvRequest, RecvReply, RecvStart, RecvAck;
    match msg.kind {
      case MsgRequest => RequestIsStep(n, id, msg, found, now);
      case MsgReply => ReplyKeys(n, id, msg, now);
      case MsgStart => StartKeys(n, id, msg, now);
      case MsgAck => AckKeys(n, id, msg, now);
    }
  }

  /** Only the user makes a request, and a new one has recycled nothing. */
  lemma OnlyAskCreates(n: Node, a: Action, t: NodeId)
    requires CanAct(n, a) && t !in n.reqs && t in Act(n, a).reqs
    ensures var r := Act(n, a).reqs[t];
            r.recycled == 0 && (r.state == Ready || r.state == Paused) && r.target == t
    ensures Act(n, a).conns == n.conns
  {
    match a {
      case Deliver(pkt, addr, found, now) => ReceiveKeys(n, BdId(pkt.from, addr), pkt.msg, found, now);
      case TickTable(_, keys, now) => VisitConnsRequests(n, keys, now);
      case Authorise(_, src, proxy, dest, bandwidth, delay, now) =>
        var (mode, loc) := Echo(n, AuthKey(a));
        AuthOkKeepsRequests(n, src, proxy, dest, mode, loc, bandwidth, delay, now);
      case _ =>
    }
  }

  lemma StepKeepsTarget(r: Request, r': Request)
    requires IsStep(r, r')
    ensures r'.target == r.target
  {
  }

  lemma ActTargets(n: Node, a: Action)
    requires CanAct(n, a) && Targets(n)
    ensures Targets(Act(n, a))
  {
    forall u | u in Act(n, a).reqs
      ensures Act(n, a).reqs[u].target == u
    {
      if u in n.reqs {
        ActIsStep(n, a, u);
        StepKeepsTarget(n.reqs[u], Act(n, a).reqs[u]);
      } else {
        OnlyAskCreates(n, a, u);
      }
    }
  }

  lemma {:induction false} RunTargets(net: Net, acts: seq<Action>)
    requires Initial(net)
    ensures forall i :: i in net.nodes ==> Targets(Run(net, acts).nodes[i])
  {
    if acts != [] {
      var prev, a := Run(net, acts[..|acts| - 1]), acts[|acts| - 1];
      RunTargets(net, acts[..|acts| - 1]);
      if Enabled(prev, a) {
        ActTargets(prev.nodes[Where(a)], a);
      }
    }
  }

  // ------------------------------------------------------- in the whole network

  /** The `first`-th action of the run makes a request for `t` at node `i`, and it is there to the end. */
  ghost predicate Requested(net: Net, acts: seq<Action>, first: nat, i: NodeId, t: NodeId) {
    && 0 < first <= |acts| && i in net.nodes && t in Run(net, acts).nodes[i].reqs
    && var shorter := acts[..|acts| - 1];
       if first == |acts| then t !in Run(net, shorter).nodes[i].reqs else Requested(net, shorter, first, i, t)
  }

  /** The states of that request, from the first to the last. */
  ghost function RequestHistory(net: Net, acts: seq<Action>, first: nat, i: NodeId, t: NodeId): (rs: seq<Request>)
    requires Requested(net, acts, first, i, t)
    ensures rs != [] && rs[|rs| - 1] == Run(net, acts).nodes[i].reqs[t]
  {
    var r := Run(net, acts).nodes[i].reqs[t];
    if first == |acts| then [r] else RequestHistory(net, acts[..|acts| - 1], first, i, t) + [r]
  }

  /** The attempts to reach `t` that were open when node `i` was asked for a connection to `t`. */
  ghost function OpenBefore(net: Net, acts: seq<Action>, first: nat, i: NodeId, t: NodeId): set<Tuple>
    requires Requested(net, acts, first, i, t)
  {
    Open(Run(net, acts[..first - 1]).nodes[i], t)
  }

  lemma NewBalances(net: Net, a: Action, i: NodeId, t: NodeId)
    requires i in net.nodes && t !in net.nodes[i].reqs && t in Apply(net, a).nodes[i].reqs
    ensures var n := Apply(net, a).nodes[i];
            History([n.reqs[t]]) && Balanced([n.reqs[t]], |Open(n, t)|, |Open(net.nodes[i], t)|)
  {
    OnlyAskCreates(net.nodes[i], a, t);
    assert Open(Apply(net, a).nodes[i], t) == Open(net.nodes[i], t);
  }

  lemma ApplyBalances(net: Net, a: Action, i: NodeId, t: NodeId, rs: seq<Request>, before: nat)
    requires i in net.nodes && Targets(net.nodes[i])
    requires t in net.nodes[i].reqs && t in Apply(net, a).nodes[i].reqs
    requires rs != [] && History(rs) && rs[|rs| - 1] == net.nodes[i].reqs[t]
    requires Balanced(rs, |Open(net.nodes[i], t)|, before)
    ensures var n := Apply(net, a).nodes[i];
            History(rs + [n.reqs[t]]) && Balanced(rs + [n.reqs[t]], |Open(n, t)|, before)
  {
    hide Balanced, History, Act, CanAct, Open, IsStep;
    var n, m := net.nodes[i], Apply(net, a).nodes[i];
    if Enabled(net, a) && Where(a) == i {
      ActIsStep(n, a, t);
      ActPays(n, a, t);
    } else {
      NothingIsStep(n.reqs[t]);
    }
    AppendHistory(rs, m.reqs[t]);
    StepBalances(rs, m.reqs[t], |Open(n, t)|, |Open(m, t)|, before);
  }

  /** In every run the books of a request are balanced. */
  lemma {:induction false} AlwaysBalanced(net: Net, acts: seq<Action>, first: nat, i: NodeId, t: NodeId)
    requires Initial(net) && Requested(net, acts, first, i, t)
    ensures var rs := RequestHistory(net, acts, first, i, t);
            && History(rs)
            && Balanced(rs, |Open(Run(net, acts).nodes[i], t)|, |OpenBefore(net, acts, first, i, t)|)
  {
    hide Balanced, Initial, Apply, StepAt;
    var last := |acts| - 1;
    var prev := Run(net, acts[..last]);
    if first == |acts| {
      NewBalances(prev, acts[last], i, t);
    } else {
      AlwaysBalanced(net, acts[..last], first, i, t);
      RunTargets(net, acts[..last]);
      assert acts[..last][..first - 1] == acts[..first - 1];
      ApplyBalances(prev, acts[last], i, t, RequestHistory(net, acts[..last], first, i, t),
                    |OpenBefore(net, acts, first, i, t)|);
    }
  }

  /**
   * In every run of the network a request with m proxies ever inserted starts at
   * most 3m + 2f + 1 attempts, where f attempts to the same target were open when
   * it was made: 3m + 1 if there was none.
   */
  lemma AttemptsBounded(net: Net, acts: seq<Action>, first: nat, i: NodeId, t: NodeId)
    requires Initial(net) && Requested(net, acts, first, i, t)
    ensures var rs, f := RequestHistory(net, acts, first, i, t), |OpenBefore(net, acts, first, i, t)|;
            && Attempted(rs) <= 3 * Inserted(rs) + 2 * f + 1
            && rs[|rs| - 1].recycled <= Attempted(rs) + f
  {
    AlwaysBalanced(net, acts, first, i, t);
  }
}
