/** What happens to one connection request, and the accounts of its proxies and attempts. */
module RequestRuns {
  import opened Collections
  import opened Ids
  import opened ConnectTypes
  import opened ConnectSpec
  import opened Handshake
  import opened HandshakeRuns

  /** What can happen to one request. */
  datatype Event =
    | Tick(now: int, installed: bool)       // the timer; `installed` if an attempt got its connection
    | Fail(err: bv32, mode: bv32, now: int) // a failure callback
    | Connect(now: int)                     // the handshake succeeded
    | Kill(now: int)
    | Offer(id: BdId)                       // a good proxy has turned up
    | Ping(id: BdId)                        // a potential proxy has answered
    | Nothing

  function StepRequest(r: Request, e: Event): Request {
    match e
    case Tick(now, installed) =>
      if r.state != Ready then AgeRequest(r, now)
      else if r.goodProxies == [] then FinishRequest(r, ERROR_OUTOFPROXY, now)
      else if installed then PopProxy(r, now)
      else FinishRequest(PopProxy(r, now), ERROR_OUTOFPROXY, now)
    case Fail(err, mode, now) => FailRequest(r, mode, err, now)
    case Connect(now) => r.(state := ExtConnect, stateTS := now)
    case Kill(now) => FinishRequest(r, ERROR_USER, now)
    case Offer(id) => AddGoodProxy(r, id)
    case Ping(id) => CheckGoodProxy(r, id)
    case Nothing => r
  }

  // ---------------------------------------------- the events are what happens

  ghost predicate IsStep(r: Request, r': Request) {
    exists e :: r' == StepRequest(r, e)
  }

  lemma NothingIsStep(r: Request)
    ensures IsStep(r, r)
  {
    assert r == StepRequest(r, Nothing);
  }

  lemma TickRequestIsStep(n: Node, t: NodeId, now: int)
    requires t in n.reqs
    ensures IsStep(n.reqs[t], TickRequest(n, t, now).0.reqs[t])
  {
    var r := n.reqs[t];
    if r.state == Ready {
      StartRequestFrame(n, t, now);
      var (m, ok) := StartRequest(n, t, now);
      if r.goodProxies != [] {
        assert m.reqs[t] == PopProxy(r, now);
      }
      assert TickRequest(n, t, now).0.reqs[t] == StepRequest(r, Tick(now, ok));
    } else if r.state == Done {
      assert r == StepRequest(r, Nothing);
    } else {
      assert TickRequest(n, t, now).0.reqs[t] == StepRequest(r, Tick(now, false));
    }
  }

  lemma {:induction false} VisitRequestsIsStep(n: Node, ts: seq<NodeId>, now: int, t: NodeId)
    requires (forall u :: u in ts ==> u in n.reqs) && t in n.reqs
    requires forall i, j :: 0 <= i < j < |ts| ==> ts[i] != ts[j]
    ensures var m := VisitRequests(n, ts, now).0;
            if t in ts then IsStep(n.reqs[t], m.reqs[t]) else m.reqs[t] == n.reqs[t]
  {
    if ts != [] {
      var last := |ts| - 1;
      VisitRequestsIsStep(n, ts[..last], now, t);
      var m := VisitRequests(n, ts[..last], now).0;
      assert ts[last] !in ts[..last];
      TickRequestFrame(m, ts[last], now);
      TickRequestIsStep(m, ts[last], now);
    }
  }

  lemma CallbackIsStep(n: Node, cb: Callback, now: int, t: NodeId)
    requires t in n.reqs
    ensures t in CallbackRequest(n, cb, now).reqs
    ensures IsStep(n.reqs[t], CallbackRequest(n, cb, now).reqs[t])
  {
    var r := n.reqs[t];
    assert FailRequest(r, cb.mode, cb.err, now) == StepRequest(r, Fail(cb.err, cb.mode, now));
    assert r.(state := ExtConnect, stateTS := now) == StepRequest(r, Connect(now));
    assert r == StepRequest(r, Nothing);
  }

  lemma InstallKeepsRequests(n: Node, k: Tuple, id: BdId, src: BdId, dest: BdId, mode: bv32, delay: int,
                             found: Option<BdId>, now: int)
    ensures InstallRequested(n, k, id, src, dest, mode, delay, found, now).reqs == n.reqs
  {
    if mode != MODE_DIRECT && src.id == id.id && found.Some? {
      var c := ConnectionRequestProxy(id, src, n.own, found.value, mode, delay, now);
      AuthOkKeepsRequests(n.(conns := n.conns[k := c]), c.srcId, c.proxyId, c.destId, c.mode, c.point, 0, 0, now);
    }
  }

  lemma AuthOkKeepsRequests(n: Node, src: BdId, proxy: BdId, dest: BdId, mode: bv32, loc: Point,
                            bandwidth: int, delay: int, now: int)
    ensures AuthOk(n, src, proxy, dest, mode, loc, bandwidth, delay, now).reqs == n.reqs
  {
  }

  lemma RequestIsStep(n: Node, id: BdId, msg: ConnectMsg, found: Option<BdId>, now: int)
    ensures RecvRequest(n, id, msg.src, msg.dest, msg.mode, msg.param, found, now).0.reqs == n.reqs
  {
    InstallKeepsRequests(n, KeyBySender(n.own, id, msg.src, msg.dest), id, msg.src, msg.dest, msg.mode, msg.param,
                         found, now);
  }

  lemma ReplyIsStep(n: Node, id: BdId, msg: ConnectMsg, now: int, t: NodeId)
    requires t in n.reqs
    ensures var m := RecvReply(n, id, msg.src, msg.dest, msg.mode, msg.param, msg.status, now).0;
            t in m.reqs && IsStep(n.reqs[t], m.reqs[t])
  {
    hide FailAtEnd, ReplyAtProxy, IsStep;
    NothingIsStep(n.reqs[t]);
    var k := KeyBySender(n.own, id, msg.src, msg.dest);
    if k in n.conns {
      FailIsStep(n, n.conns[k], msg.status, now, t);
    }
  }

  lemma FailIsStep(n: Node, c: Connection, status: bv32, now: int, t: NodeId)
    requires t in n.reqs
    ensures var m := FailAtEnd(n, c, status, now); t in m.reqs && IsStep(n.reqs[t], m.reqs[t])
  {
    hide CallbackRequest, CreateErrorCode, IsStep;
    NothingIsStep(n.reqs[t]);
    var err := if status != ANSWER_OKAY && c.point.StartPoint? then status
               else CreateErrorCode(0, ERROR_PROTOCOL, c.point);
    CallbackIsStep(n, Callback(c.srcId, c.proxyId, c.destId, c.mode, c.point, 0, CbFailed, err), now, t);
  }

  lemma StartIsStep(n: Node, id: BdId, msg: ConnectMsg, now: int, t: NodeId)
    requires t in n.reqs
    ensures var m := RecvStart(n, id, msg.src, msg.dest, msg.mode, msg.param, now).0;
            t in m.reqs && IsStep(n.reqs[t], m.reqs[t])
  {
    hide CallbackRequest, CompleteConnection, IsStep;
    NothingIsStep(n.reqs[t]);
    var k := KeyBySender(n.own, id, msg.src, msg.dest);
    if k in n.conns && n.conns[k].state == WaitingStart {
      var c := n.conns[k];
      var relay := c.mode == MODE_RELAY;
      var d := CompleteConnection(c, msg.src, msg.dest, if relay then msg.param else 0,
                                  if relay then 0 else msg.param, now);
      var n1 := n.Send(id, MsgAck, c.srcId, c.destId, msg.mode, 0, ANSWER_OKAY).(conns := n.conns[k := d]);
      CallbackIsStep(n1, Callback(d.srcConnAddr, d.proxyId, d.destConnAddr, d.mode, d.point, msg.param, CbStart, 0),
                     now, t);
    }
  }

  lemma AckIsStep(n: Node, id: BdId, msg: ConnectMsg, now: int, t: NodeId)
    requires t in n.reqs
    ensures var m := RecvAck(n, id, msg.src, msg.dest, now).0;
            t in m.reqs && IsStep(n.reqs[t], m.reqs[t])
  {
    hide CallbackRequest, Acknowledge, IsStep;
    NothingIsStep(n.reqs[t]);
    var k := KeyBySender(n.own, id, msg.src, msg.dest);
    if k in n.conns {
      var a := Acknowledge(n.conns[k], id.id, msg.src.id, msg.dest.id);
      CallbackIsStep(n, Callback(a.srcConnAddr, a.proxyId, a.destId, a.mode, a.point, 0, CbStart, 0), now, t);
    }
  }

  /** Messages reach a request only through the internal upcall. */
  lemma ReceiveIsStep(n: Node, id: BdId, msg: ConnectMsg, found: Option<BdId>, now: int, t: NodeId)
    requires t in n.reqs
    ensures t in Receive(n, id, msg, found, now).reqs
    ensures IsStep(n.reqs[t], Receive(n, id, msg, found, now).reqs[t])
  {
    match msg.kind {
      case MsgRequest =>
        RequestIsStep(n, id, msg, found, now);
        NothingIsStep(n.reqs[t]);
      case MsgReply => ReplyIsStep(n, id, msg, now, t);
      case MsgStart => StartIsStep(n, id, msg, now, t);
      case MsgAck => AckIsStep(n, id, msg, now, t);
    }
  }

  /** The operations of the user and the routing table on one request. */
  lemma EditIsStep(n: Node, a: Action, t: NodeId)
    requires CanAct(n, a) && t in n.reqs && t in Act(n, a).reqs
    requires a.Ask? || a.Cancel? || a.Learn? || a.Hear? || a.Configure? || a.Shutdown?
    ensures IsStep(n.reqs[t], Act(n, a).reqs[t])
  {
    var r := n.reqs[t];
    assert r == StepRequest(r, Nothing);
    if a.Cancel? {
      assert FinishRequest(r, ERROR_USER, a.now) == StepRequest(r, Kill(a.now));
    } else if a.Learn? {
      assert AddGoodProxy(r, a.id) == StepRequest(r, Offer(a.id));
    } else if a.Hear? {
      assert CheckGoodProxy(r, a.id) == StepRequest(r, Ping(a.id));
    }
  }

  lemma DecisionIsStep(n: Node, a: Action)
    requires a.Authorise? || a.Refuse?
    ensures Act(n, a).reqs == n.reqs
  {
    if a.Authorise? {
      var (mode, loc) := Echo(n, AuthKey(a));
      AuthOkKeepsRequests(n, a.src, a.proxy, a.dest, mode, loc, a.bandwidth, a.delay, a.now);
    }
  }

  /** Whatever a node does, one of its requests changes by one of the events. */
  lemma ActIsStep(n: Node, a: Action, t: NodeId)
    requires CanAct(n, a) && t in n.reqs && t in Act(n, a).reqs
    ensures IsStep(n.reqs[t], Act(n, a).reqs[t])
  {
    var r := n.reqs[t];
    assert r == StepRequest(r, Nothing);
    if a.Deliver? {
      ReceiveIsStep(n, BdId(a.pkt.from, a.addr), a.pkt.msg, a.found, a.now, t);
    } else if a.TickReqs? {
      VisitRequestsIsStep(n, a.targets, a.now, t);
    } else if a.TickTable? {
      VisitConnsRequests(n, a.keys, a.now);
    } else if a.Authorise? || a.Refuse? {
      DecisionIsStep(n, a);
    } else {
      EditIsStep(n, a, t);
    }
  }

  lemma VisitConnsRequests(n: Node, ks: seq<Tuple>, now: int)
    requires forall k :: k in ks ==> k in n.conns
    ensures VisitConns(n, ks, now).0.reqs == n.reqs
  {
  }

  // ------------------------------------------------------------ the accounting

  /** The states a request goes through, oldest first. */
  ghost predicate History(rs: seq<Request>) {
    && rs != []
    && rs[0].recycled == 0 && (rs[0].state == Ready || rs[0].state == Paused)
    && forall i :: 0 < i < |rs| ==> StepAt(rs, i)
  }

  ghost predicate StepAt(rs: seq<Request>, i: nat)
    requires 0 < i < |rs|
  {
    IsStep(rs[i - 1], rs[i])
  }

  /** An attempt takes a proxy off the list. */
  predicate Attempts(r: Request, r': Request) {
    |r'.goodProxies| < |r.goodProxies|
  }

  /** The list grows by a proxy that is not a recycled one. */
  predicate Inserts(r: Request, r': Request) {
    |r'.goodProxies| > |r.goodProxies| && r'.recycled == r.recycled
  }

  function Attempted(rs: seq<Request>): nat
    requires rs != []
  {
    if |rs| == 1 then 0
    else
      var n := |rs| - 1;
      Attempted(rs[..n]) + if Attempts(rs[n - 1], rs[n]) then 1 else 0
  }

  function Inserted(rs: seq<Request>): nat
    requires rs != []
  {
    if |rs| == 1 then |rs[0].goodProxies|
    else
      var n := |rs| - 1;
      Inserted(rs[..n]) + if Inserts(rs[n - 1], rs[n]) then 1 else 0
  }

  /** How one step changes the list of proxies and the counters. */
  ghost predicate Counts(r: Request, r': Request) {
    && |r'.goodProxies| + (if Attempts(r, r') then 1 else 0) + r.recycled
       == |r.goodProxies| + (if Inserts(r, r') then 1 else 0) + r'.recycled
    && (Attempts(r, r') ==> r.state == Ready && r'.state != Ready)
    && (r'.state == Ready && r.state != Ready ==>
         r'.goodProxies == r.goodProxies && r'.recycled == r.recycled && r.recycled <= 3 * |r.goodProxies|)
  }

  lemma TickCounts(r: Request, e: Event)
    requires e.Tick?
    ensures Counts(r, StepRequest(r, e))
  {
  }

  lemma StepCounts(r: Request, r': Request, e: Event)
    requires r' == StepRequest(r, e)
    ensures Counts(r, r')
  {
    if e.Offer? || e.Ping? {
      OffersOne(r, e);
    } else if e.Fail? {
      FailKeeps(r, e.mode, e.err, e.now);
    } else if e.Tick? {
      TickCounts(r, e);
    }
  }

  lemma FailKeeps(r: Request, mode: bv32, err: bv32, now: int)
    ensures var r' := FailRequest(r, mode, err, now);
            && r'.state != Ready
            && |r'.goodProxies| - |r.goodProxies| == r'.recycled - r.recycled
            && (r'.recycled == r.recycled || r'.recycled == r.recycled + 1)
  {
    match Decide(err, mode) {
      case Fatal =>
      case Recycle =>
      case NextProxy =>
    }
  }

  lemma OffersOne(r: Request, e: Event)
    requires e.Offer? || e.Ping?
    ensures var r' := StepRequest(r, e);
            && |r.goodProxies| <= |r'.goodProxies| <= |r.goodProxies| + 1
            && r'.recycled == r.recycled && r'.state == r.state
  {
  }

  /** Every proxy ever inserted or recycled is listed or was tried. */
  lemma {:induction false} ProxiesConserved(rs: seq<Request>)
    requires History(rs)
    ensures |rs[|rs| - 1].goodProxies| + Attempted(rs) == Inserted(rs) + rs[|rs| - 1].recycled
  {
    var n := |rs| - 1;
    if n > 0 {
      PrefixHistory(rs);
      ProxiesConserved(rs[..n]);
      assert StepAt(rs, n);
      var e :| rs[n] == StepRequest(rs[n - 1], e);
      StepCounts(rs[n - 1], rs[n], e);
    }
  }

  lemma PrefixHistory(rs: seq<Request>)
    requires History(rs) && |rs| > 1
    ensures History(rs[..|rs| - 1])
  {
    var n := |rs| - 1;
    forall i | 0 < i < n
      ensures StepAt(rs[..n], i)
    {
      assert StepAt(rs, i);
    }
  }

  lemma CountOne(rs: seq<Request>, r: Request)
    requires rs != []
    ensures var q := rs[|rs| - 1];
            && Attempted(rs + [r]) == Attempted(rs) + (if Attempts(q, r) then 1 else 0)
            && Inserted(rs + [r]) == Inserted(rs) + (if Inserts(q, r) then 1 else 0)
  {
    assert (rs + [r])[..|rs|] == rs;
  }

  lemma AppendHistory(rs: seq<Request>, r: Request)
    requires History(rs) && IsStep(rs[|rs| - 1], r)
    ensures History(rs + [r])
  {
    var all := rs + [r];
    forall i | 0 < i < |all|
      ensures StepAt(all, i)
    {
      if i < |rs| {
        assert StepAt(rs, i);
      }
    }
  }

  /**
   * The books of a request: `open` attempts have not been answered yet, and
   * `old` attempts to the same target were open when it was made.
   */
  predicate Balanced(rs: seq<Request>, open: nat, before: nat)
    requires rs != []
  {
    var r := rs[|rs| - 1];
    && |r.goodProxies| + Attempted(rs) == Inserted(rs) + r.recycled
    && r.recycled + open <= Attempted(rs) + before
    && Attempted(rs) <= 3 * Inserted(rs) + 2 * before + 1
    && (r.state == Ready ==> Attempted(rs) <= 3 * Inserted(rs) + 2 * before)
  }

  /** A step that recycles no more than it opens or closes keeps the books balanced. */
  lemma StepBalances(rs: seq<Request>, r: Request, open: nat, open': nat, before: nat)
    requires rs != [] && Balanced(rs, open, before) && IsStep(rs[|rs| - 1], r)
    requires var q := rs[|rs| - 1];
             r.recycled + open' <= q.recycled + open + if Attempts(q, r) then 1 else 0
    ensures Balanced(rs + [r], open', before)
  {
    CountOne(rs, r);
    var e :| r == StepRequest(rs[|rs| - 1], e);
    StepCounts(rs[|rs| - 1], r, e);
  }
}
