/** Whole runs of a network of connection managers, and what they guarantee. */
module HandshakeRuns {
  import opened Collections
  import opened Ids
  import opened ConnectTypes
  import opened ConnectSpec
  import opened Handshake

  datatype Net = Net(nodes: map<NodeId, Node>, facts: Facts)

  /** One thing that happens at one node. */
  datatype Action =
    | Deliver(pkt: Packet, addr: Addr, found: Option<BdId>, now: int)
    | Authorise(at: NodeId, src: BdId, proxy: BdId, dest: BdId, bandwidth: int, delay: int, now: int)
    | Refuse(at: NodeId, src: BdId, proxy: BdId, dest: BdId, err: bv32)
    | TickTable(at: NodeId, keys: seq<Tuple>, now: int)
    | TickReqs(at: NodeId, targets: seq<NodeId>, now: int)
    | Ask(at: NodeId, local: Addr, target: NodeId, mode: bv32, delay: int,
          proxies: seq<ProxyId>, potential: seq<BdId>, now: int)
    | Cancel(at: NodeId, target: NodeId, now: int)
    | Learn(at: NodeId, id: BdId, target: NodeId, engine: bool)
    | Hear(at: NodeId, id: BdId)
    | Configure(at: NodeId, allowed: bv32, autoProxy: bool, relayServer: bool)
    | Shutdown(at: NodeId)

  function Where(a: Action): NodeId {
    if a.Deliver? then a.pkt.to.id else a.at
  }

  function AuthKey(a: Action): Tuple
    requires a.Authorise? || a.Refuse?
  {
    Tuple(a.src.id, a.proxy.id, a.dest.id)
  }

  /** The mode and point of the entry that a decision of the upper layer is about. */
  function Echo(n: Node, k: Tuple): (bv32, Point) {
    if k in n.conns then (n.conns[k].mode, n.conns[k].point) else (0, UnknownPoint)
  }

  /** The dispatch on the type of a connect message. */
  function Receive(n: Node, id: BdId, msg: ConnectMsg, found: Option<BdId>, now: int): (m: Node)
    ensures m.own == n.own
  {
    match msg.kind
    case MsgRequest => RecvRequest(n, id, msg.src, msg.dest, msg.mode, msg.param, found, now).0
    case MsgReply => RecvReply(n, id, msg.src, msg.dest, msg.mode, msg.param, msg.status, now).0
    case MsgStart => RecvStart(n, id, msg.src, msg.dest, msg.mode, msg.param, now).0
    case MsgAck => RecvAck(n, id, msg.src, msg.dest, now).0
  }

  ghost predicate CanAct(n: Node, a: Action) {
    match a
    case Deliver(pkt, _, found, _) => found.Some? ==> found.value.id == pkt.msg.dest.id
    case TickTable(_, keys, _) => Lists(keys, n.conns.Keys)
    case TickReqs(_, targets, _) => Lists(targets, n.reqs.Keys)
    case _ => true
  }

  ghost function Act(n: Node, a: Action): (m: Node)
    requires CanAct(n, a)
    ensures m.own == n.own
  {
    match a
    case Deliver(pkt, addr, found, now) => Receive(n, BdId(pkt.from, addr), pkt.msg, found, now)
    case Authorise(_, src, proxy, dest, bandwidth, delay, now) =>
      var (mode, loc) := Echo(n, AuthKey(a));
      AuthOk(n, src, proxy, dest, mode, loc, bandwidth, delay, now)
    case Refuse(_, src, proxy, dest, err) =>
      var (mode, loc) := Echo(n, AuthKey(a));
      AuthNo(n, src, proxy, dest, mode, loc, err)
    case TickTable(_, keys, now) => TickConns(n, keys, now)
    case TickReqs(_, targets, now) => TickRequests(n, targets, now)
    case Ask(_, local, target, mode, delay, proxies, potential, now) =>
      NewRequest(n, local, target, mode, delay, proxies, potential, now).0
    case Cancel(_, target, now) => KillRequest(n, target, now).0
    case Learn(_, id, target, engine) => AddPotentialProxy(n, id, target, engine)
    case Hear(_, id) => UpdatePotentialProxy(n, id)
    case Configure(_, allowed, autoProxy, relayServer) =>
      n.(allowed := allowed, autoProxy := autoProxy, relayServer := relayServer)
    case Shutdown(_) => n.(conns := map[], reqs := map[])
  }

  /** The clock reading an action uses, if any. */
  function TimeOf(a: Action): Option<int> {
    match a
    case Deliver(_, _, _, now) => Some(now)
    case Authorise(_, _, _, _, _, _, now) => Some(now)
    case TickTable(_, _, now) => Some(now)
    case TickReqs(_, _, now) => Some(now)
    case Ask(_, _, _, _, _, _, _, now) => Some(now)
    case Cancel(_, _, now) => Some(now)
    case _ => None
  }

  /** A packet can arrive if some node sent it once; sending is never undone. */
  ghost predicate Enabled(net: Net, a: Action) {
    && Where(a) in net.nodes && CanAct(net.nodes[Where(a)], a)
    && (a.Deliver? ==> exists i :: i in net.nodes && a.pkt in net.nodes[i].sent)
  }

  ghost function FactsAfter(f: Facts, n: Node, a: Action): (g: Facts)
    requires CanAct(n, a)
    ensures Extends(f, g)
  {
    Observe(if a.Authorise? then WithConsent(f, n, AuthKey(a)) else f, Act(n, a))
  }

  /** Actions that cannot happen change nothing, so every sequence is a run. */
  ghost function Apply(net: Net, a: Action): (after: Net)
    ensures after.nodes.Keys == net.nodes.Keys
  {
    if !Enabled(net, a) then net
    else
      var n := net.nodes[Where(a)];
      Net(net.nodes[Where(a) := Act(n, a)], FactsAfter(net.facts, n, a))
  }

  ghost function Run(net: Net, acts: seq<Action>): (after: Net)
    ensures after.nodes.Keys == net.nodes.Keys
  {
    if acts == [] then net
    else Apply(Run(net, acts[..|acts| - 1]), acts[|acts| - 1])
  }

  ghost predicate Initial(net: Net) {
    && net.facts == Facts({}, {})
    && forall i :: i in net.nodes ==>
         var n := net.nodes[i];
         n.own == i && n.conns == map[] && n.reqs == map[] && n.sent == []
  }

  /** A node whose requests are due does not use itself as a proxy. */
  ghost predicate ProxyIsOther(net: Net, a: Action) {
    a.TickReqs? && Enabled(net, a) ==> NoSelfProxy(net.nodes[a.at])
  }

  /** In no step of the run does a node use itself as a proxy. */
  ghost predicate ProxiesAreOthers(net: Net, acts: seq<Action>) {
    acts != [] ==>
      var last := |acts| - 1;
      ProxiesAreOthers(net, acts[..last]) && ProxyIsOther(Run(net, acts[..last]), acts[last])
  }

  ghost predicate Inv(net: Net) {
    forall i :: i in net.nodes ==> net.nodes[i].own == i && NodeOk(net.facts, net.nodes[i])
  }

  // ------------------------------------------------------------- preservation

  lemma ReceiveOk(f: Facts, n: Node, pkt: Packet, addr: Addr, found: Option<BdId>, now: int)
    requires NodeOk(f, n) && PacketOk(f, pkt) && pkt.to.id == n.own
    requires found.Some? ==> found.value.id == pkt.msg.dest.id
    ensures var m := Receive(n, BdId(pkt.from, addr), pkt.msg, found, now); NodeOk(Observe(f, m), m)
  {
    var id, msg := BdId(pkt.from, addr), pkt.msg;
    var m := Receive(n, id, msg, found, now);
    match msg.kind {
      case MsgRequest => RecvRequestOk(f, n, id, msg.src, msg.dest, msg.mode, msg.param, found, now);
      case MsgReply => RecvReplyOk(f, n, id, msg.src, msg.dest, msg.mode, msg.param, msg.status, now);
      case MsgStart => RecvStartOk(f, n, id, msg.src, msg.dest, msg.mode, msg.param, now); return;
      case MsgAck => RecvAckOk(f, n, id, msg.src, msg.dest, now);
    }
    NodeOkMonotone(f, Observe(f, m), m);
  }

  predicate IsEdit(a: Action) {
    a.Ask? || a.Cancel? || a.Learn? || a.Hear? || a.Configure? || a.Shutdown?
  }

  lemma EditFrame(n: Node, a: Action)
    requires IsEdit(a)
    ensures var m := Act(n, a); m.sent == n.sent && m.conns == if a.Shutdown? then map[] else n.conns
  {
    hide NewRequest, KillRequest, AddPotentialProxy, UpdatePotentialProxy;
  }

  lemma AddKeepsTarget(r: Request, id: BdId)
    ensures AddGoodProxy(r, id).target == r.target && CheckGoodProxy(r, id).target == r.target
  {
  }

  lemma EditRequestsOk(n: Node, a: Action)
    requires IsEdit(a) && RequestsOk(n)
    ensures RequestsOk(Act(n, a))
  {
    hide CheckGoodProxy, AddGoodProxy;
    if a.Learn? && a.target in n.reqs {
      AddKeepsTarget(n.reqs[a.target], a.id);
    } else if a.Hear? {
      forall t | t in n.reqs
        ensures CheckGoodProxy(n.reqs[t], a.id).target == n.reqs[t].target
      {
        AddKeepsTarget(n.reqs[t], a.id);
      }
    }
  }

  lemma RequestEditsOk(f: Facts, n: Node, a: Action)
    requires NodeOk(f, n) && IsEdit(a)
    ensures NodeOk(f, Act(n, a))
  {
    hide SentOk, TableOk, RequestsOk, Act, Initial;
    EditRequestsOk(n, a);
    EditFrame(n, a);
    hide NodeOk;
    EmptyTableOk(f, n);
    SameTableOk(f, if a.Shutdown? then n.(conns := map[]) else n, Act(n, a));
  }

  lemma EmptyTableOk(f: Facts, n: Node)
    requires NodeOk(f, n)
    ensures NodeOk(f, n.(conns := map[]))
  {
  }

  lemma ActOk(f: Facts, n: Node, a: Action)
    requires NodeOk(f, n) && CanAct(n, a) && Where(a) == n.own
    requires a.Deliver? ==> PacketOk(f, a.pkt)
    requires a.TickReqs? ==> NoSelfProxy(n)
    ensures NodeOk(FactsAfter(f, n, a), Act(n, a))
  {
    var g := FactsAfter(f, n, a);
    match a {
      case Deliver(pkt, addr, found, now) =>
        ReceiveOk(f, n, pkt, addr, found, now);
        return;
      case Authorise(_, src, proxy, dest, bandwidth, delay, now) =>
        var (mode, loc) := Echo(n, AuthKey(a));
        AuthOkOk(f, n, src, proxy, dest, mode, loc, bandwidth, delay, now);
        NodeOkMonotone(WithConsent(f, n, AuthKey(a)), g, Act(n, a));
        return;
      case Refuse(_, src, proxy, dest, err) =>
        var (mode, loc) := Echo(n, AuthKey(a));
        AuthNoOk(f, n, src, proxy, dest, mode, loc, err);
      case TickTable(_, keys, now) => TickConnsOk(f, n, keys, now);
      case TickReqs(_, targets, now) => TickRequestsOk(f, n, targets, now);
      case _ => RequestEditsOk(f, n, a);
    }
    NodeOkMonotone(f, g, Act(n, a));
  }

  lemma ApplyOk(net: Net, a: Action)
    requires Inv(net) && ProxyIsOther(net, a)
    ensures Inv(Apply(net, a)) && Extends(net.facts, Apply(net, a).facts)
  {
    if Enabled(net, a) {
      var at := Where(a);
      if a.Deliver? {
        var i :| i in net.nodes && a.pkt in net.nodes[i].sent;
        assert PacketOk(net.facts, a.pkt);
      }
      ActOk(net.facts, net.nodes[at], a);
      var net' := Apply(net, a);
      forall i | i in net'.nodes
        ensures net'.nodes[i].own == i && NodeOk(net'.facts, net'.nodes[i])
      {
        if i != at {
          NodeOkMonotone(net.facts, net'.facts, net.nodes[i]);
        }
      }
    }
  }

  /** The invariant of the protocol holds after every run. */
  lemma {:induction false} RunOk(net: Net, acts: seq<Action>)
    requires Initial(net) && ProxiesAreOthers(net, acts)
    ensures Inv(Run(net, acts))
  {
    if acts != [] {
      RunOk(net, acts[..|acts| - 1]);
      ApplyOk(Run(net, acts[..|acts| - 1]), acts[|acts| - 1]);
    }
  }

  // ----------------------------------------------------------------- theorems

  /** The state before the j-th action of a run. */
  ghost function Before(net: Net, acts: seq<Action>, j: nat): Net
    requires j <= |acts|
  {
    Run(net, acts[..j])
  }

  /** In `net`, action `a` is the destination of `k` letting a waiting connection go on. */
  ghost predicate ConsentsTo(net: Net, a: Action, k: Tuple) {
    && Enabled(net, a) && a.Authorise? && AuthKey(a) == k && a.at == k.dest
    && GivesConsent(net.nodes[k.dest], k)
  }

  ghost predicate CompletedAt(net: Net, i: NodeId, k: Tuple) {
    i in net.nodes && k in net.nodes[i].conns && net.nodes[i].conns[k].state == Completed
  }

  lemma BeforePrefix(net: Net, acts: seq<Action>, j: nat)
    requires j < |acts|
    ensures Before(net, acts[..|acts| - 1], j) == Before(net, acts, j)
  {
    assert acts[..|acts| - 1][..j] == acts[..j];
  }

  /** A consent that is new was given by this action. */
  lemma NewConsent(net: Net, a: Action, k: Tuple)
    requires Inv(net) && k !in net.facts.auth && k in Apply(net, a).facts.auth
    ensures ConsentsTo(net, a, k)
  {
    assert ConnOk(net.facts, a.at, k, net.nodes[a.at].conns[k]);
  }

  /** A completion that is new is there after this action. */
  lemma NewCompletion(net: Net, a: Action, i: NodeId, k: Tuple)
    requires Inv(net) && (i, k) !in net.facts.done && (i, k) in Apply(net, a).facts.done
    ensures CompletedAt(Apply(net, a), i, k)
  {
  }

  /** Every recorded consent was given by the destination during the run. */
  lemma {:induction false} ConsentHappened(net: Net, acts: seq<Action>, k: Tuple)
    requires Initial(net) && ProxiesAreOthers(net, acts) && k in Run(net, acts).facts.auth
    ensures exists j :: 0 <= j < |acts| && ConsentsTo(Before(net, acts, j), acts[j], k)
  {
    hide Apply, Inv, ConsentsTo;
    if acts != [] {
      var last := |acts| - 1;
      var prev := Run(net, acts[..last]);
      if k in prev.facts.auth {
        hide Initial;
        ConsentHappened(net, acts[..last], k);
        var j :| 0 <= j < last && ConsentsTo(Before(net, acts[..last], j), acts[..last][j], k);
        BeforePrefix(net, acts, j);
      } else {
        RunOk(net, acts[..last]);
        NewConsent(prev, acts[last], k);
        assert ConsentsTo(Before(net, acts, last), acts[last], k);
      }
    }
  }

  /** Every recorded completion was seen at its node during the run. */
  lemma {:induction false} CompletionHappened(net: Net, acts: seq<Action>, i: NodeId, k: Tuple)
    requires Initial(net) && ProxiesAreOthers(net, acts) && (i, k) in Run(net, acts).facts.done
    ensures exists j :: 0 <= j <= |acts| && CompletedAt(Before(net, acts, j), i, k)
  {
    hide Apply, Inv, CompletedAt;
    if acts != [] {
      var last := |acts| - 1;
      var prev := Run(net, acts[..last]);
      if (i, k) in prev.facts.done {
        hide Initial;
        CompletionHappened(net, acts[..last], i, k);
        var j :| 0 <= j <= last && CompletedAt(Before(net, acts[..last], j), i, k);
        assert acts[..last][..j] == acts[..j];
        assert CompletedAt(Before(net, acts, j), i, k);
      } else {
        RunOk(net, acts[..last]);
        NewCompletion(prev, acts[last], i, k);
        assert acts[..|acts|] == acts;
        assert CompletedAt(Before(net, acts, |acts|), i, k);
      }
    }
  }

  /**
   * Safety of the handshake: whenever a node of the network holds a completed
   * connection, its destination has authorised exactly this connection before.
   */
  lemma CompletedNeedsConsent(net: Net, acts: seq<Action>, i: NodeId, k: Tuple)
    requires Initial(net) && ProxiesAreOthers(net, acts) && CompletedAt(Run(net, acts), i, k)
    ensures i == k.src || i == k.dest
    ensures var filed := if i == k.src then Consent(k) else k;
            exists j :: 0 <= j < |acts| && ConsentsTo(Before(net, acts, j), acts[j], filed)
  {
    RunOk(net, acts);
    var end := Run(net, acts);
    assert ConnOk(end.facts, i, k, end.nodes[i].conns[k]);
    ConsentHappened(net, acts, if i == k.src then Consent(k) else k);
  }

  /** The pairs of point and state that an entry can be in. */
  predicate Reachable(c: Connection) {
    match c.point
    case StartPoint => c.state == WaitingStart || c.state == Completed
    case MidPoint =>
      c.mode != MODE_DIRECT && (c.state == WaitingAuth || c.state == WaitingReply || c.state == WaitingAck)
    case EndPoint =>
      || c.state == WaitingAuth
      || (if c.mode == MODE_DIRECT then c.state == WaitingAck else c.state == WaitingStart || c.state == Completed)
    case UnknownPoint => false
  }

  /** In every run an entry sits at the place its key names, under its own ids, in a state that its place allows. */
  lemma EntriesInPlace(net: Net, acts: seq<Action>, i: NodeId, k: Tuple)
    requires Initial(net) && ProxiesAreOthers(net, acts)
    requires i in Run(net, acts).nodes && k in Run(net, acts).nodes[i].conns
    ensures var c := Run(net, acts).nodes[i].conns[k];
            && c.HasIds(k) && k.src != k.dest && Reachable(c)
            && i == match c.point
                    case StartPoint => k.src case MidPoint => k.proxy case EndPoint => k.dest case UnknownPoint => i
  {
    RunOk(net, acts);
    assert ConnOk(Run(net, acts).facts, i, k, Run(net, acts).nodes[i].conns[k]);
  }

  /**
   * A proxy that drops a connection on an acknowledgement does so only after
   * both the source and the destination have completed this connection.
   */
  lemma ProxyFinishMeansBothCompleted(net: Net, acts: seq<Action>, a: Action, p: NodeId, k: Tuple)
    requires Initial(net) && ProxiesAreOthers(net, acts) && Enabled(Run(net, acts), a)
    requires a.Deliver? && a.pkt.msg.kind == MsgAck && a.pkt.to.id == p
    requires k in Run(net, acts).nodes[p].conns && Run(net, acts).nodes[p].conns[k].point == MidPoint
    requires k !in Apply(Run(net, acts), a).nodes[p].conns
    ensures exists j :: 0 <= j <= |acts| && CompletedAt(Before(net, acts, j), k.src, k)
    ensures exists j :: 0 <= j <= |acts| && CompletedAt(Before(net, acts, j), k.dest, k)
  {
    var now := Run(net, acts);
    RunOk(net, acts);
    var i :| i in now.nodes && a.pkt in now.nodes[i].sent;
    assert PacketOk(now.facts, a.pkt);
    ProxyFinishesAfterBoth(now.facts, now.nodes[p], BdId(a.pkt.from, a.addr), a.pkt.msg.src, a.pkt.msg.dest, a.now, k);
    CompletionHappened(net, acts, k.src, k);
    CompletionHappened(net, acts, k.dest, k);
  }

  /** Nothing but refusals is sent, and the upper layer hears of failures only. */
  ghost predicate OnlyRefuses(n: Node, m: Node, status: bv32) {
    && (m.sent == n.sent
        || exists p: Packet :: p.msg.kind == MsgReply && p.msg.status == status && m.sent == n.sent + [p])
    && (m.calls == n.calls
        || exists cb: Callback :: cb.kind == CbFailed && cb.err != ANSWER_OKAY && m.calls == n.calls + [cb])
  }

  lemma RefusedAtProxy(n: Node, k: Tuple, dest: BdId, mode: bv32, delay: int, status: bv32, now: int)
    requires k in n.conns && status != ANSWER_OKAY
    ensures var m := ReplyAtProxy(n, k, n.conns[k], dest, mode, delay, status, now).0;
            m.conns == n.conns - {k} && OnlyRefuses(n, m, status)
  {
    var c := n.conns[k];
    var m := ReplyAtProxy(n, k, c, dest, mode, delay, status, now).0;
    var p := Packet(n.own, c.srcId, ConnectMsg(MsgReply, c.srcConnAddr, c.destConnAddr, mode, 0, status));
    assert m.sent == n.sent + [p];
    var cb := Callback(c.srcId, c.proxyId, c.destId, c.mode, c.point, 0, CbFailed, status);
    assert m.calls == n.calls || m.calls == n.calls + [cb];
  }

  lemma RefusedAtEnd(n: Node, c: Connection, status: bv32, now: int)
    requires status != ANSWER_OKAY
    ensures var m := FailAtEnd(n, c, status, now);
            m.conns == n.conns && m.sent == n.sent && OnlyRefuses(n, m, status)
  {
    hide TellRequests, CreateErrorCode;
    var err := if c.point.StartPoint? then status else CreateErrorCode(0, ERROR_PROTOCOL, c.point);
    var cb := Callback(c.srcId, c.proxyId, c.destId, c.mode, c.point, 0, CbFailed, err);
    var m := FailAtEnd(n, c, status, now);
    assert m.calls == n.calls || m.calls == n.calls + [cb];
  }

  /** A refusal removes the entry it is about and is never taken as an acceptance. */
  lemma RefusalEndsConnection(n: Node, id: BdId, src: BdId, dest: BdId, mode: bv32, delay: int, status: bv32, now: int)
    requires status != ANSWER_OKAY
    ensures var m := RecvReply(n, id, src, dest, mode, delay, status, now).0;
            m.conns == n.conns - {KeyBySender(n.own, id, src, dest)} && OnlyRefuses(n, m, status)
  {
    hide ReplyAtProxy, FailAtEnd;
    var k := KeyBySender(n.own, id, src, dest);
    if k !in n.conns {
      assert n.conns == n.conns - {k};
    } else if n.conns[k].point.MidPoint? {
      RefusedAtProxy(n, k, dest, mode, delay, status, now);
    } else {
      RefusedAtEnd(n, n.conns[k], status, now);
    }
  }
}
