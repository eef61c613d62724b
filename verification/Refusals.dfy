/**
 * Refusals on their way back: from the destination or the proxy that refuses to
 * the source, and what they mean for the request there.  Error types, sources
 * and modes are written as the numbers they have in the program.
 */
module Refusals {
  import opened Collections
  import opened Ids
  import opened ConnectTypes
  import opened ConnectSpec
  import opened Handshake
  import opened HandshakeRuns
  import opened ConnectionTable
  import opened RequestRuns
  import opened AttemptBound
  import opened StartPackets

  // ----------------------------------------------- what a refusal means

  /**
   * The failed attempts that end their request: the destination is unavailable
   * (4) or has a similar connection (10), whoever says so; or the destination
   * itself does not support the mode (7), denies it (9) or, in proxy mode, cannot
   * be reached (6).
   */
  predicate EndsRequest(err: bv32, mode: bv32) {
    var kind, fromEnd := err & 0xffff, err & 0xff_0000 == 0x4_0000;
    kind == 4 || kind == 10 || (fromEnd && (kind == 7 || kind == 9 || (kind == 6 && mode == 2)))
  }

  /** A proxy that has no room for a relayed connection (8) is worth another try. */
  predicate ProxyIsFull(err: bv32, mode: bv32) {
    err & 0xffff == 8 && err & 0xff_0000 == 0x2_0000 && mode == 4
  }

  /** The proxy of the attempt, with the reason why it failed. */
  function Tried(r: Request, err: bv32): ProxyId {
    ProxyId(r.currentAttempt, r.currentSrcType, err)
  }

  /** The request after an attempt in `mode` has failed with `err`. */
  predicate FailedAs(r: Request, r': Request, mode: bv32, err: bv32, now: int) {
    && r' == r.(state := r'.state, stateTS := now, errCode := err, pauseTS := r'.pauseTS, recycled := r'.recycled,
                goodProxies := r'.goodProxies, peersTried := r'.peersTried)
    && (r'.state == Done <==> EndsRequest(err, mode))
    && (r'.state == Done ==> r'.pauseTS == r.pauseTS && r'.goodProxies == r.goodProxies
                             && r'.peersTried == r.peersTried && r'.recycled == r.recycled)
    && (r'.state != Done ==>
         && r'.state == Paused && r'.pauseTS == now + 1
         && if ProxyIsFull(err, mode)
            then r'.goodProxies == r.goodProxies + [Tried(r, err)] && r'.recycled == r.recycled + 1
                 && r'.peersTried == r.peersTried
            else r'.goodProxies == r.goodProxies && r'.recycled == r.recycled
                 && r'.peersTried == r.peersTried + [Tried(r, err)])
  }

  /** Exactly these failures end a request; after all others it pauses for a second and goes on with other proxies. */
  lemma FailureExactly(r: Request, mode: bv32, err: bv32, now: int)
    ensures FailedAs(r, FailRequest(r, mode, err, now), mode, err, now)
  {
    hide FailedAs;
    DecideExactly(err, mode);
    FailureByMove(r, mode, err, now);
  }

  lemma DecideExactly(err: bv32, mode: bv32)
    ensures Decide(err, mode) == if EndsRequest(err, mode) then Fatal
                                 else if ProxyIsFull(err, mode) then Recycle else NextProxy
  {
  }

  lemma FailureByMove(r: Request, mode: bv32, err: bv32, now: int)
    requires Decide(err, mode) == if EndsRequest(err, mode) then Fatal
                                  else if ProxyIsFull(err, mode) then Recycle else NextProxy
    ensures FailedAs(r, FailRequest(r, mode, err, now), mode, err, now)
  {
    hide Decide, EndsRequest, ProxyIsFull;
  }

  /** What the status of a refusal says: the reason given or else `fallback`, and the point that refused. */
  predicate StatusSays(status: bv32, user: bv32, fallback: bv32, point: Point) {
    && status & 0xffff == (if user & 0xffff != 0 then user & 0xffff else fallback)
    && status & 0xff_0000 == match point
                             case StartPoint => 0x1_0000 case MidPoint => 0x2_0000
                             case EndPoint => 0x4_0000 case UnknownPoint => 0
  }

  lemma CodeSays(user: bv32, fallback: bv32, point: Point)
    requires fallback != 0 && ErrType(fallback) == fallback
    ensures StatusSays(CreateErrorCode(user, fallback, point), user, fallback, point)
  {
    hide CreateErrorCode, ErrType, StatusSays;
    ErrorCodeFields(user, fallback, point);
    FieldsSay(CreateErrorCode(user, fallback, point), user, fallback, point);
  }

  lemma FieldsSay(status: bv32, user: bv32, fallback: bv32, point: Point)
    requires ErrType(status) == if ErrType(user) != 0 then ErrType(user) else fallback
    requires status & MASK_SOURCE == match point
                                     case StartPoint => SOURCE_START case MidPoint => SOURCE_MID
                                     case EndPoint => SOURCE_END case UnknownPoint => 0
    ensures StatusSays(status, user, fallback, point)
  {
    hide ErrType;
    TypeIs(user);
    TypeIs(status);
  }

  lemma TypeIs(err: bv32)
    ensures ErrType(err) == err & 0xffff
  {
  }

  /** A denial by the destination, given without another reason, ends the request; one by a proxy does not. */
  lemma DenialMeans(status: bv32, user: bv32, point: Point, mode: bv32)
    requires StatusSays(status, user, 9, point) && (user & 0xffff == 0 || user & 0xffff == 9)
    ensures EndsRequest(status, mode) <==> point == EndPoint
    ensures !ProxyIsFull(status, mode)
  {
  }

  // ------------------------------------------------------ sent once, sent for ever

  lemma AnswersKeep(n: Node, m: Node)
    requires AnswersOnce(n, m)
    ensures n.sent <= m.sent
  {
  }

  lemma {:induction false} VisitRequestsKeep(n: Node, ts: seq<NodeId>, now: int)
    requires forall t :: t in ts ==> t in n.reqs
    ensures n.sent <= VisitRequests(n, ts, now).0.sent
  {
    hide TickRequest;
    if ts != [] {
      var last := |ts| - 1;
      VisitRequestsKeep(n, ts[..last], now);
      var m := VisitRequests(n, ts[..last], now).0;
      TickRequestAnswers(m, ts[last], now);
      AnswersKeep(m, TickRequest(m, ts[last], now).0);
    }
  }

  lemma ActKeepsSent(n: Node, a: Action)
    requires CanAct(n, a)
    ensures n.sent <= Act(n, a).sent
  {
    match a {
      case TickTable(_, keys, now) => TickConnsSends(n, keys, now);
      case TickReqs(_, targets, now) => VisitRequestsKeep(n, targets, now);
      case Deliver(pkt, addr, found, now) =>
        ReceiveAnswers(n, BdId(pkt.from, addr), pkt.msg, found, now);
      case Authorise(_, src, proxy, dest, bandwidth, delay, now) =>
        var (mode, loc) := Echo(n, AuthKey(a));
        AuthOkAnswers(n, src, proxy, dest, mode, loc, bandwidth, delay, now);
      case Refuse(_, src, proxy, dest, err) =>
        var (mode, loc) := Echo(n, AuthKey(a));
        AuthNoAnswers(n, src, proxy, dest, mode, loc, err);
      case _ =>
    }
  }

  /** Some node has sent this packet, so it can arrive. */
  ghost predicate Sent(net: Net, pkt: Packet) {
    exists i :: i in net.nodes && pkt in net.nodes[i].sent
  }

  lemma ApplyKeepsSent(net: Net, a: Action, pkt: Packet)
    requires Sent(net, pkt)
    ensures Sent(Apply(net, a), pkt)
  {
    hide Act, CanAct;
    var i :| i in net.nodes && pkt in net.nodes[i].sent;
    if Enabled(net, a) {
      ActKeepsSent(net.nodes[Where(a)], a);
    }
    assert pkt in Apply(net, a).nodes[i].sent;
  }

  lemma {:induction false} RunKeepsSent(net: Net, acts: seq<Action>, pkt: Packet)
    requires Sent(net, pkt)
    ensures Sent(Run(net, acts), pkt)
  {
    hide Apply, Sent;
    if acts != [] {
      RunKeepsSent(net, acts[..|acts| - 1], pkt);
      ApplyKeepsSent(Run(net, acts[..|acts| - 1]), acts[|acts| - 1], pkt);
    }
  }

  // ------------------------------------------------------------ one refusal

  /** A REPLY of `from` to `to` about the connection `k`. */
  predicate IsReply(p: Packet, from: NodeId, to: BdId, k: Tuple, mode: bv32, status: bv32) {
    && p.from == from && p.to == to && p.msg.kind == MsgReply
    && p.msg.src.id == k.src && p.msg.dest.id == k.dest && p.msg.mode == mode && p.msg.status == status
  }

  /** The entry under `k` goes, one REPLY is sent, and neither another entry nor a request changes. */
  ghost predicate DropsWithReply(n: Node, m: Node, k: Tuple, to: BdId, mode: bv32, status: bv32) {
    && m.conns == n.conns - {k} && m.reqs == n.reqs
    && exists p :: m.sent == n.sent + [p] && IsReply(p, n.own, to, k, mode, status)
  }

  /** Whom a node tells that it refuses the connection: the destination its proxy, all others the source. */
  function RefusalGoesTo(c: Connection): BdId {
    if c.point == EndPoint && c.mode != 1 then c.proxyId else c.srcId
  }

  lemma RefuseEntry(f: Facts, n: Node, a: Action, k: Tuple) returns (status: bv32)
    requires a.Refuse? && k == AuthKey(a) && k in n.conns && ConnOk(f, n.own, k, n.conns[k])
    ensures var c, m := n.conns[k], Act(n, a);
            && StatusSays(status, a.err, 9, c.point) && status != 0
            && DropsWithReply(n, m, k, RefusalGoesTo(c), c.mode, status) && m.calls == n.calls
  {
    hide CreateErrorCode, StatusSays;
    var c, m := n.conns[k], Act(n, a);
    status := CreateErrorCode(a.err, ERROR_AUTH_DENIED, c.point);
    DeniedIsNine();
    CodeSays(a.err, ERROR_AUTH_DENIED, c.point);
    var p := m.sent[|n.sent|];
    assert m.sent == n.sent + [p] && IsReply(p, n.own, RefusalGoesTo(c), k, c.mode, status);
  }

  lemma DeniedIsNine()
    ensures ERROR_AUTH_DENIED == 9 && ErrType(ERROR_AUTH_DENIED) == ERROR_AUTH_DENIED
  {
  }

  /** The upcall about a connection that has failed. */
  function Failure(c: Connection, err: bv32): Callback {
    Callback(c.srcId, c.proxyId, c.destId, c.mode, c.point, 0, CbFailed, err)
  }

  lemma PassRefusalOn(f: Facts, n: Node, k: Tuple, id: BdId, msg: ConnectMsg, found: Option<BdId>, now: int)
    requires k in n.conns && ConnOk(f, n.own, k, n.conns[k]) && n.conns[k].point == MidPoint
    requires msg.kind == MsgReply && msg.status != 0 && msg.src.id == k.src && msg.dest.id == k.dest
    ensures var c, m := n.conns[k], Receive(n, id, msg, found, now);
            && DropsWithReply(n, m, k, c.srcId, msg.mode, msg.status)
            && m.calls == if n.autoProxy && c.mode == 2 then n.calls else n.calls + [Failure(c, msg.status)]
  {
    var c, m := n.conns[k], Receive(n, id, msg, found, now);
    assert KeyBySender(n.own, id, msg.src, msg.dest) == k;
    var p := m.sent[|n.sent|];
    assert m.sent == n.sent + [p] && IsReply(p, n.own, c.srcId, k, msg.mode, msg.status);
  }

  lemma FailsAtSource(n: Node, c: Connection, status: bv32, now: int)
    requires c.point == StartPoint && status != 0
    ensures FailAtEnd(n, c, status, now) == CallbackRequest(n, Failure(c, status), now)
  {
    hide CallbackRequest, CreateErrorCode;
  }

  /** What the requests and the upper layer learn of a failed attempt. */
  lemma FailureIsTold(n: Node, c: Connection, status: bv32, now: int)
    requires c.point == StartPoint
    ensures var m, t := CallbackRequest(n, Failure(c, status), now), c.destId.id;
            && m.own == n.own && m.conns == n.conns && m.sent == n.sent && m.reqs.Keys == n.reqs.Keys
            && (forall u :: u in n.reqs && u != t ==> m.reqs[u] == n.reqs[u])
            && (t in n.reqs ==> FailedAs(n.reqs[t], m.reqs[t], c.mode, status, now))
            && m.calls == if t in n.reqs then n.calls + [Failure(c, status)] else n.calls
  {
    hide FailedAs, FailRequest;
    if c.destId.id in n.reqs {
      FailureExactly(n.reqs[c.destId.id], c.mode, status, now);
    }
  }

  /** The source drops the connection and lets the request for the destination know. */
  lemma RefusedAtSource(f: Facts, n: Node, k: Tuple, id: BdId, msg: ConnectMsg, found: Option<BdId>, now: int)
    requires k in n.conns && ConnOk(f, n.own, k, n.conns[k]) && n.conns[k].point == StartPoint
    requires msg.kind == MsgReply && msg.status != 0
    requires msg.src.id == k.src && msg.dest.id == k.dest && id.id == k.proxy
    ensures var c, m := n.conns[k], Receive(n, id, msg, found, now);
            && m.conns == n.conns - {k} && m.sent == n.sent && m.reqs.Keys == n.reqs.Keys
            && (forall t :: t in n.reqs && t != k.dest ==> m.reqs[t] == n.reqs[t])
            && (k.dest in n.reqs ==> FailedAs(n.reqs[k.dest], m.reqs[k.dest], c.mode, msg.status, now))
            && m.calls == if k.dest in n.reqs then n.calls + [Failure(c, msg.status)] else n.calls
  {
    hide FailedAs, FailAtEnd, CallbackRequest, ReplyAtProxy, Failure;
    assert KeyBySender(n.own, id, msg.src, msg.dest) == k;
    FailsAtSource(n, n.conns[k], msg.status, now);
    FailureIsTold(n, n.conns[k], msg.status, now);
  }

  // ------------------------------------------------------ from end to end

  ghost predicate HoldsEntry(net: Net, i: NodeId, k: Tuple) {
    i in net.nodes && k in net.nodes[i].conns
  }

  /** The packet that this node sent last. */
  ghost predicate IsLatest(net: Net, i: NodeId, pkt: Packet) {
    i in net.nodes && net.nodes[i].sent != [] && net.nodes[i].sent[|net.nodes[i].sent| - 1] == pkt
  }

  lemma {:induction false} InvGoesOn(net: Net, acts: seq<Action>)
    requires Inv(net) && ProxiesAreOthers(net, acts)
    ensures Inv(Run(net, acts))
  {
    hide Inv, Apply, ProxyIsOther;
    if acts != [] {
      InvGoesOn(net, acts[..|acts| - 1]);
      ApplyOk(Run(net, acts[..|acts| - 1]), acts[|acts| - 1]);
    }
  }

  /** An entry is at the source, the proxy or the destination that its key names. */
  lemma EntryAt(net: Net, i: NodeId, k: Tuple)
    requires Inv(net) && HoldsEntry(net, i, k)
    ensures net.nodes[i].own == i && ConnOk(net.facts, i, k, net.nodes[i].conns[k])
    ensures var c := net.nodes[i].conns[k];
            && c.HasIds(k) && k.src != k.dest
            && (i == k.src ==> c.point == StartPoint) && (i == k.dest ==> c.point == EndPoint)
            && (i == k.proxy && i != k.dest && i != k.src ==> c.point == MidPoint)
            && (c.point == MidPoint ==> i == k.proxy)
            && (c.mode != 1 && i == k.dest ==> k.proxy != k.src && k.proxy != k.dest)
  {
    var n := net.nodes[i];
    EntryOk(net.facts, n, k);
  }

  lemma LatestIs(net: Net, i: NodeId, sent: seq<Packet>, p: Packet)
    requires i in net.nodes && net.nodes[i].sent == sent + [p]
    ensures IsLatest(net, i, p) && Sent(net, p)
  {
    assert p in net.nodes[i].sent;
  }

  /** Whoever refuses a connection drops it, and sends one REPLY that says so. */
  lemma RefuserDrops(net: Net, a: Action, k: Tuple)
    requires Inv(net) && a.Refuse? && AuthKey(a) == k && HoldsEntry(net, a.at, k)
    ensures var n, m, c := net.nodes[a.at], Apply(net, a).nodes[a.at], net.nodes[a.at].conns[k];
            && m.conns == n.conns - {k} && m.reqs == n.reqs && m.calls == n.calls
            && exists pkt :: m.sent == n.sent + [pkt] && Sent(Apply(net, a), pkt)
                             && IsReply(pkt, a.at, RefusalGoesTo(c), k, c.mode, pkt.msg.status)
                             && StatusSays(pkt.msg.status, a.err, 9, c.point) && pkt.msg.status != 0
  {
    hide Inv, ConnOk, StatusSays, Act, NodeOk;
    EntryAt(net, a.at, k);
    var n := net.nodes[a.at];
    assert Enabled(net, a);
    var status := RefuseEntry(net.facts, n, a, k);
    var m, c := Act(n, a), n.conns[k];
    var pkt :| m.sent == n.sent + [pkt] && IsReply(pkt, n.own, RefusalGoesTo(c), k, c.mode, status);
    LatestIs(Apply(net, a), a.at, n.sent, pkt);
  }

  /**
   * A refusal that reaches a proxy takes the connection away there, and goes on
   * to the source, and to nobody else, with the same status.
   */
  lemma ProxyPassesOn(net: Net, b: Action, k: Tuple)
    requires Inv(net) && Enabled(net, b) && b.Deliver? && b.pkt.msg.kind == MsgReply && b.pkt.msg.status != 0
    requires b.pkt.to.id == k.proxy && b.pkt.msg.src.id == k.src && b.pkt.msg.dest.id == k.dest
    requires HoldsEntry(net, k.proxy, k) && net.nodes[k.proxy].conns[k].point == MidPoint
    ensures var n, m, c := net.nodes[k.proxy], Apply(net, b).nodes[k.proxy], net.nodes[k.proxy].conns[k];
            && c.srcId.id == k.src && m.conns == n.conns - {k} && m.reqs == n.reqs
            && m.calls == (if n.autoProxy && c.mode == 2 then n.calls else n.calls + [Failure(c, b.pkt.msg.status)])
            && exists pkt :: m.sent == n.sent + [pkt] && Sent(Apply(net, b), pkt)
                             && IsReply(pkt, k.proxy, c.srcId, k, b.pkt.msg.mode, b.pkt.msg.status)
  {
    hide Inv, ConnOk, Receive, NodeOk, Failure;
    EntryAt(net, k.proxy, k);
    var n, c := net.nodes[k.proxy], net.nodes[k.proxy].conns[k];
    var id := BdId(b.pkt.from, b.addr);
    PassRefusalOn(net.facts, n, k, id, b.pkt.msg, b.found, b.now);
    var m := Receive(n, id, b.pkt.msg, b.found, b.now);
    var pkt :| m.sent == n.sent + [pkt] && IsReply(pkt, n.own, c.srcId, k, b.pkt.msg.mode, b.pkt.msg.status);
    assert Apply(net, b).nodes[k.proxy] == m;
    LatestIs(Apply(net, b), k.proxy, n.sent, pkt);
  }

  /** A refusal of the peer an attempt goes through takes the attempt away and settles what its request does next. */
  lemma SourceLearns(net: Net, c: Action, k: Tuple)
    requires Inv(net) && Enabled(net, c) && c.Deliver? && c.pkt.msg.kind == MsgReply && c.pkt.msg.status != 0
    requires c.pkt.to.id == k.src && c.pkt.from == k.proxy && c.pkt.msg.src.id == k.src && c.pkt.msg.dest.id == k.dest
    requires HoldsEntry(net, k.src, k)
    ensures var n, m, e := net.nodes[k.src], Apply(net, c).nodes[k.src], net.nodes[k.src].conns[k];
            && m.conns == n.conns - {k} && m.sent == n.sent && m.reqs.Keys == n.reqs.Keys
            && (forall t :: t in n.reqs && t != k.dest ==> m.reqs[t] == n.reqs[t])
            && (k.dest in n.reqs ==> FailedAs(n.reqs[k.dest], m.reqs[k.dest], e.mode, c.pkt.msg.status, c.now))
            && m.calls == if k.dest in n.reqs then n.calls + [Failure(e, c.pkt.msg.status)] else n.calls
  {
    hide Inv, ConnOk, Receive, NodeOk, Failure, FailedAs;
    EntryAt(net, k.src, k);
    var n, id := net.nodes[k.src], BdId(c.pkt.from, c.addr);
    RefusedAtSource(net.facts, n, k, id, c.pkt.msg, c.found, c.now);
    assert Apply(net, c).nodes[k.src] == Receive(n, id, c.pkt.msg, c.found, c.now);
  }

  lemma LatestIsOne(net: Net, i: NodeId, sent: seq<Packet>, p: Packet, q: Packet)
    requires i in net.nodes && net.nodes[i].sent == sent + [p] && IsLatest(net, i, q)
    ensures p == q
  {
  }

  /** From the refusal by the destination to its arrival at the proxy, whatever else happens meanwhile. */
  lemma FirstLeg(net: Net, a: Action, st1: Net, xs: seq<Action>, st2: Net, b: Action, k: Tuple)
    requires Inv(net) && a.Refuse? && AuthKey(a) == k && a.at == k.dest
    requires HoldsEntry(net, k.dest, k) && net.nodes[k.dest].conns[k].mode != 1
    requires st1 == Apply(net, a) && ProxiesAreOthers(st1, xs) && st2 == Run(st1, xs)
    requires b.Deliver? && IsLatest(st1, k.dest, b.pkt) && (b.found.Some? ==> b.found.value.id == b.pkt.msg.dest.id)
    requires HoldsEntry(st2, k.proxy, k)
    ensures !HoldsEntry(st1, k.dest, k) && b.pkt.to.id == k.proxy && Inv(st2) && Enabled(st2, b)
    ensures b.pkt.msg.kind == MsgReply && b.pkt.msg.src.id == k.src && b.pkt.msg.dest.id == k.dest
    ensures b.pkt.msg.mode == net.nodes[k.dest].conns[k].mode
    ensures StatusSays(b.pkt.msg.status, a.err, 9, EndPoint) && b.pkt.msg.status != 0
    ensures st2.nodes[k.proxy].conns[k].point == MidPoint
  {
    hide Inv, ConnOk, StatusSays, Act, Apply, Sent, Run;
    EntryAt(net, k.dest, k);
    RefuserDrops(net, a, k);
    ApplyOk(net, a);
    var n, m := net.nodes[a.at], st1.nodes[a.at];
    var pkt :| m.sent == n.sent + [pkt] && Sent(st1, pkt)
               && IsReply(pkt, a.at, RefusalGoesTo(n.conns[k]), k, n.conns[k].mode, pkt.msg.status)
               && StatusSays(pkt.msg.status, a.err, 9, n.conns[k].point) && pkt.msg.status != 0;
    LatestIsOne(st1, a.at, n.sent, pkt, b.pkt);
    InvGoesOn(st1, xs);
    RunKeepsSent(st1, xs, pkt);
    EntryAt(st2, k.proxy, k);
    CanArrive(st2, b);
  }

  lemma CanArrive(net: Net, b: Action)
    requires b.Deliver? && Sent(net, b.pkt) && b.pkt.to.id in net.nodes
    requires b.found.Some? ==> b.found.value.id == b.pkt.msg.dest.id
    ensures Enabled(net, b)
  {
  }

  /** From the arrival of the refusal at the proxy to its arrival at the source. */
  lemma SecondLeg(st2: Net, b: Action, st3: Net, ys: seq<Action>, st4: Net, c: Action, k: Tuple)
    requires Inv(st2) && Enabled(st2, b) && b.Deliver? && b.pkt.msg.kind == MsgReply && b.pkt.msg.status != 0
    requires b.pkt.to.id == k.proxy && b.pkt.msg.src.id == k.src && b.pkt.msg.dest.id == k.dest
    requires HoldsEntry(st2, k.proxy, k) && st2.nodes[k.proxy].conns[k].point == MidPoint
    requires st3 == Apply(st2, b) && ProxiesAreOthers(st3, ys) && st4 == Run(st3, ys)
    requires c.Deliver? && IsLatest(st3, k.proxy, c.pkt) && (c.found.Some? ==> c.found.value.id == c.pkt.msg.dest.id)
    requires HoldsEntry(st4, k.src, k)
    ensures !HoldsEntry(st3, k.proxy, k) && Inv(st4) && Enabled(st4, c)
    ensures c.pkt.msg.kind == MsgReply && c.pkt.msg.status == b.pkt.msg.status && c.pkt.from == k.proxy
    ensures c.pkt.to.id == k.src && c.pkt.msg.src.id == k.src && c.pkt.msg.dest.id == k.dest
  {
    hide Inv, ConnOk, Act, Apply, Sent, Run, Failure;
    ProxyPassesOn(st2, b, k);
    DeliveryOk(st2, b);
    var n, m, e := st2.nodes[k.proxy], st3.nodes[k.proxy], st2.nodes[k.proxy].conns[k];
    var pkt :| m.sent == n.sent + [pkt] && Sent(st3, pkt)
               && IsReply(pkt, k.proxy, e.srcId, k, b.pkt.msg.mode, b.pkt.msg.status);
    LatestIsOne(st3, k.proxy, n.sent, pkt, c.pkt);
    InvGoesOn(st3, ys);
    RunKeepsSent(st3, ys, pkt);
    CanArrive(st4, c);
  }

  lemma DeliveryOk(net: Net, b: Action)
    requires Inv(net) && b.Deliver?
    ensures Inv(Apply(net, b))
  {
    hide Inv, Apply;
    ApplyOk(net, b);
  }

  /**
   * A refusal by the destination takes the connection away at the destination,
   * and, whatever happens in between, at the proxy and at the source when the
   * REPLYs arrive there.  The request of the source is told the reason as the
   * destination gave it; a denial ends it.
   */
  lemma RefusalReachesSource(
    start: Net, acts: seq<Action>, net: Net, k: Tuple, a: Action, st1: Net,
    xs: seq<Action>, st2: Net, b: Action, st3: Net, ys: seq<Action>, st4: Net, c: Action, st5: Net)
    requires Initial(start) && ProxiesAreOthers(start, acts) && net == Run(start, acts)
    requires a.Refuse? && AuthKey(a) == k && a.at == k.dest
    requires HoldsEntry(net, k.dest, k) && net.nodes[k.dest].conns[k].mode != 1
    requires st1 == Apply(net, a) && ProxiesAreOthers(st1, xs) && st2 == Run(st1, xs)
    requires b.Deliver? && IsLatest(st1, k.dest, b.pkt) && (b.found.Some? ==> b.found.value.id == b.pkt.msg.dest.id)
    requires HoldsEntry(st2, k.proxy, k)
    requires st3 == Apply(st2, b) && ProxiesAreOthers(st3, ys) && st4 == Run(st3, ys)
    requires c.Deliver? && IsLatest(st3, k.proxy, c.pkt) && (c.found.Some? ==> c.found.value.id == c.pkt.msg.dest.id)
    requires HoldsEntry(st4, k.src, k)
    requires st5 == Apply(st4, c)
    ensures !HoldsEntry(st1, k.dest, k) && !HoldsEntry(st3, k.proxy, k) && !HoldsEntry(st5, k.src, k)
    ensures StatusSays(c.pkt.msg.status, a.err, 9, EndPoint)
    ensures Settles(st4.nodes[k.src], st5.nodes[k.src], k, c, a.err, EndPoint)
  {
    hide Inv, Apply, Run, StatusSays, FailedAs, Failure, Settles;
    RunOk(start, acts);
    FirstLeg(net, a, st1, xs, st2, b, k);
    SecondLeg(st2, b, st3, ys, st4, c, k);
    SourceSettles(st4, c, k, a.err, EndPoint);
  }

  /**
   * The request for the destination is settled by the refusal.  A denial ends it
   * exactly if it comes from the destination.  A refusal by a proxy, unless it
   * reports the destination unavailable or known already, makes it pause; the
   * proxy at hand is noted with the reason, and the other proxies stay listed.
   */
  ghost predicate Settles(n: Node, m: Node, k: Tuple, c: Action, err: bv32, point: Point)
    requires c.Deliver?
  {
    && m.reqs.Keys == n.reqs.Keys
    && (k in n.conns && k.dest in n.reqs ==>
         var r, r' := n.reqs[k.dest], m.reqs[k.dest];
         && FailedAs(r, r', n.conns[k].mode, c.pkt.msg.status, c.now)
         && (err & 0xffff == 0 || err & 0xffff == 9 ==> (r'.state == Done <==> point == EndPoint))
         && (point == MidPoint && err & 0xffff != 4 && err & 0xffff != 10 ==> GoesOn(r, r', c.pkt.msg.status)))
  }

  /** The proxy at hand is noted with the reason for its failure, and all others are still there. */
  ghost predicate GoesOn(r: Request, r': Request, err: bv32) {
    && r'.state == Paused && r.goodProxies <= r'.goodProxies
    && ((r'.peersTried == r.peersTried + [Tried(r, err)] && r'.goodProxies == r.goodProxies)
        || (r'.peersTried == r.peersTried && r'.goodProxies == r.goodProxies + [Tried(r, err)]))
  }

  lemma SourceSettles(net: Net, c: Action, k: Tuple, err: bv32, point: Point)
    requires Inv(net) && Enabled(net, c) && c.Deliver? && c.pkt.msg.kind == MsgReply && c.pkt.msg.status != 0
    requires c.pkt.to.id == k.src && c.pkt.from == k.proxy && c.pkt.msg.src.id == k.src && c.pkt.msg.dest.id == k.dest
    requires HoldsEntry(net, k.src, k) && StatusSays(c.pkt.msg.status, err, 9, point)
    ensures !HoldsEntry(Apply(net, c), k.src, k)
    ensures Settles(net.nodes[k.src], Apply(net, c).nodes[k.src], k, c, err, point)
  {
    hide Inv, Apply, StatusSays, FailedAs, Failure, GoesOn;
    SourceLearns(net, c, k);
    var n, m := net.nodes[k.src], Apply(net, c).nodes[k.src];
    if k.dest in n.reqs {
      FailureSettles(n.reqs[k.dest], m.reqs[k.dest], n.conns[k].mode, c.pkt.msg.status, c.now, err, point);
    }
  }

  lemma FailureSettles(r: Request, r': Request, mode: bv32, status: bv32, now: int, err: bv32, point: Point)
    requires FailedAs(r, r', mode, status, now) && StatusSays(status, err, 9, point)
    ensures err & 0xffff == 0 || err & 0xffff == 9 ==> (r'.state == Done <==> point == EndPoint)
    ensures point == MidPoint && err & 0xffff != 4 && err & 0xffff != 10 ==> GoesOn(r, r', status)
  {
    hide EndsRequest, ProxyIsFull, StatusSays, Tried;
    if err & 0xffff == 0 || err & 0xffff == 9 {
      DenialMeans(status, err, point, mode);
    }
    if point == MidPoint && err & 0xffff != 4 && err & 0xffff != 10 {
      NotFromEnd(status, err, mode);
    }
  }

  lemma NotFromEnd(status: bv32, err: bv32, mode: bv32)
    requires StatusSays(status, err, 9, MidPoint) && err & 0xffff != 4 && err & 0xffff != 10
    ensures !EndsRequest(status, mode)
  {
  }

  /**
   * A refusal by the peer that the source deals with, a proxy or the destination
   * of a direct connection, goes to the source and settles its request there.
   */
  lemma PeersRefusalReachesSource(
    start: Net, acts: seq<Action>, net: Net, k: Tuple, a: Action, st1: Net,
    xs: seq<Action>, st2: Net, c: Action, st3: Net)
    requires Initial(start) && ProxiesAreOthers(start, acts) && net == Run(start, acts)
    requires a.Refuse? && AuthKey(a) == k && HoldsEntry(net, a.at, k)
    requires a.at != k.src && (a.at == k.dest ==> net.nodes[a.at].conns[k].mode == 1)
    requires st1 == Apply(net, a) && ProxiesAreOthers(st1, xs) && st2 == Run(st1, xs)
    requires c.Deliver? && IsLatest(st1, a.at, c.pkt) && (c.found.Some? ==> c.found.value.id == c.pkt.msg.dest.id)
    requires HoldsEntry(st2, k.src, Tuple(k.src, a.at, k.dest))
    requires st3 == Apply(st2, c)
    ensures !HoldsEntry(st1, a.at, k) && !HoldsEntry(st3, k.src, Tuple(k.src, a.at, k.dest))
    ensures var point := if a.at == k.dest then EndPoint else MidPoint;
            && StatusSays(c.pkt.msg.status, a.err, 9, point)
            && Settles(st2.nodes[k.src], st3.nodes[k.src], Tuple(k.src, a.at, k.dest), c, a.err, point)
  {
    hide Inv, Apply, Run, StatusSays, ConnOk, Sent, Settles;
    RunOk(start, acts);
    EntryAt(net, a.at, k);
    RefuserDrops(net, a, k);
    ApplyOk(net, a);
    var n, m := net.nodes[a.at], st1.nodes[a.at];
    var pkt :| m.sent == n.sent + [pkt] && Sent(st1, pkt)
               && IsReply(pkt, a.at, RefusalGoesTo(n.conns[k]), k, n.conns[k].mode, pkt.msg.status)
               && StatusSays(pkt.msg.status, a.err, 9, n.conns[k].point) && pkt.msg.status != 0;
    LatestIsOne(st1, a.at, n.sent, pkt, c.pkt);
    InvGoesOn(st1, xs);
    RunKeepsSent(st1, xs, pkt);
    CanArrive(st2, c);
    SourceSettles(st2, c, Tuple(k.src, a.at, k.dest), a.err, n.conns[k].point);
  }

  // ----------------------------------------------------- answers out of turn

  /** This status says that the protocol was broken (2), at this point. */
  predicate SaysProtocol(status: bv32, point: Point) {
    StatusSays(status, 0, 2, point)
  }

  lemma ProtocolCode(point: Point)
    ensures SaysProtocol(CreateErrorCode(0, ERROR_PROTOCOL, point), point)
    ensures ERROR_PROTOCOL == 2
  {
    hide CreateErrorCode, StatusSays;
    CodeSays(0, ERROR_PROTOCOL, point);
  }

  /** A proxy that does not wait for an acceptance takes it for a failure, and tells the source so. */
  lemma AcceptanceOutOfTurn(f: Facts, n: Node, k: Tuple, id: BdId, msg: ConnectMsg, found: Option<BdId>, now: int)
    returns (status: bv32)
    requires k in n.conns && ConnOk(f, n.own, k, n.conns[k]) && n.conns[k].point == MidPoint
    requires n.conns[k].state != WaitingReply
    requires msg.kind == MsgReply && msg.status == 0 && msg.src.id == k.src && msg.dest.id == k.dest
    ensures var c, m := n.conns[k], Receive(n, id, msg, found, now);
            && DropsWithReply(n, m, k, c.srcId, msg.mode, status) && SaysProtocol(status, MidPoint)
            && m.calls == if n.autoProxy && c.mode == 2 then n.calls else n.calls + [Failure(c, status)]
  {
    hide CreateErrorCode, SaysProtocol;
    var c, m := n.conns[k], Receive(n, id, msg, found, now);
    assert KeyBySender(n.own, id, msg.src, msg.dest) == k;
    status := CreateErrorCode(0, ERROR_PROTOCOL, c.point);
    ProtocolCode(MidPoint);
    var p := m.sent[|n.sent|];
    assert m.sent == n.sent + [p] && IsReply(p, n.own, c.srcId, k, msg.mode, status);
  }

  /** At the source an acceptance, which is not for it, fails the attempt, and its request goes on without it. */
  lemma AcceptanceAtSource(n: Node, k: Tuple, id: BdId, msg: ConnectMsg, found: Option<BdId>, now: int)
    returns (status: bv32)
    requires k == KeyBySender(n.own, id, msg.src, msg.dest) && k in n.conns
    requires var c := n.conns[k]; c.point == StartPoint && c.destId.id == k.dest
    requires msg.kind == MsgReply && msg.status == 0
    ensures var c, m := n.conns[k], Receive(n, id, msg, found, now);
            && SaysProtocol(status, StartPoint) && m.conns == n.conns - {k} && m.sent == n.sent
            && m.reqs.Keys == n.reqs.Keys && (forall t :: t in n.reqs && t != k.dest ==> m.reqs[t] == n.reqs[t])
            && (k.dest in n.reqs ==> FailedAs(n.reqs[k.dest], m.reqs[k.dest], c.mode, status, now))
  {
    hide CreateErrorCode, SaysProtocol, CallbackRequest, ReplyAtProxy, FailedAs;
    var c := n.conns[k];
    status := CreateErrorCode(0, ERROR_PROTOCOL, c.point);
    ProtocolCode(StartPoint);
    FailureIsTold(n, c, status, now);
  }

  /** At the destination any reply fails the connection; neither a request nor a packet comes of it. */
  lemma ReplyAtDestination(n: Node, k: Tuple, id: BdId, msg: ConnectMsg, found: Option<BdId>, now: int)
    returns (status: bv32)
    requires k == KeyBySender(n.own, id, msg.src, msg.dest) && k in n.conns && n.conns[k].point == EndPoint
    requires msg.kind == MsgReply
    ensures SaysProtocol(status, EndPoint)
    ensures Receive(n, id, msg, found, now)
            == n.(conns := n.conns - {k}, calls := n.calls + [Failure(n.conns[k], status)])
  {
    hide CreateErrorCode, SaysProtocol, ReplyAtProxy;
    status := CreateErrorCode(0, ERROR_PROTOCOL, n.conns[k].point);
    ProtocolCode(EndPoint);
  }
}
