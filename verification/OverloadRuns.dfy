/**
 * Runs of the network in which every relay answers that it is overloaded.  They
 * reach the bound on the attempts of a request, with and without an attempt that
 * was open before the request was made.
 */
module OverloadRuns {
  import opened Collections
  import opened Ids
  import opened ConnectTypes
  import opened ConnectSpec
  import opened HandshakeRuns
  import opened RequestRuns
  import opened AttemptBound

  /** The status that a relay refuses an authorisation with when it is overloaded. */
  const OVERLOADED: bv32 := CreateErrorCode(ERROR_OVERLOADED, ERROR_AUTH_DENIED, MidPoint)

  lemma OverloadedIsRecycled()
    ensures Decide(OVERLOADED, MODE_RELAY) == Recycle && OVERLOADED != ANSWER_OKAY
  {
  }

  // ---------------------------------------------------------------- the stage

  predicate IsRequest(pkt: Packet, own: NodeId, p: NodeId, t: NodeId) {
    && pkt.from == own && pkt.to.id == p
    && pkt.msg.kind == MsgRequest && pkt.msg.src.id == own && pkt.msg.dest.id == t && pkt.msg.mode == MODE_RELAY
  }

  /** An attempt through `p` is open, and its REQUEST is under way. */
  ghost predicate Waits(n: Node, p: NodeId, t: NodeId) {
    var k := Tuple(n.own, p, t);
    && k in n.conns && n.conns[k].point == StartPoint && n.conns[k].mode == MODE_RELAY && n.conns[k].destId.id == t
    && exists pkt :: pkt in n.sent && IsRequest(pkt, n.own, p, t)
  }

  /** Nodes that may relay and that nobody else uses. */
  ghost predicate Idle(net: Net, own: NodeId, t: NodeId, relays: set<NodeId>) {
    forall p :: p in relays ==>
      && p in net.nodes && p != own && p != t
      && net.nodes[p].own == p && net.nodes[p].conns == map[] && net.nodes[p].allowed & MODE_RELAY != 0
  }

  /** The relays are idle, and `own` has attempts open through `open` and no other connection. */
  ghost predicate Stage(net: Net, own: NodeId, t: NodeId, relays: set<NodeId>, open: set<NodeId>) {
    && Idle(net, own, t, relays) && open <= relays
    && own in net.nodes && own != t
    && net.nodes[own].own == own && net.nodes[own].allowed & MODE_RELAY != 0
    && (forall k :: k in net.nodes[own].conns <==> k.src == own && k.proxy in open && k.dest == t)
    && (forall p :: p in open ==> Waits(net.nodes[own], p, t))
  }

  /** The clock readings of the actions never go back, and end at `now` or before. */
  ghost predicate InTime(acts: seq<Action>, now: int) {
    acts != [] ==>
      var last := |acts| - 1;
      match TimeOf(acts[last])
      case None => InTime(acts[..last], now)
      case Some(t) => t <= now && InTime(acts[..last], t)
  }

  lemma {:induction false} InTimeLater(acts: seq<Action>, now: int, later: int)
    requires InTime(acts, now) && now <= later
    ensures InTime(acts, later)
  {
    if acts != [] && TimeOf(acts[|acts| - 1]).None? {
      InTimeLater(acts[..|acts| - 1], now, later);
    }
  }

  lemma InTimeOne(acts: seq<Action>, a: Action, now: int, later: int)
    requires InTime(acts, now) && now <= later && (TimeOf(a).Some? ==> TimeOf(a).value == later)
    ensures InTime(acts + [a], later)
  {
    InTimeLater(acts, now, later);
    assert (acts + [a])[..|acts|] == acts;
  }

  lemma RunOne(net: Net, acts: seq<Action>, a: Action)
    ensures Run(net, acts + [a]) == Apply(Run(net, acts), a)
  {
    assert (acts + [a])[..|acts|] == acts;
  }

  // ------------------------------------------------------ what one node does

  lemma TickOnly(n: Node, t: NodeId, now: int)
    requires n.reqs.Keys == {t}
    ensures var (m, erase) := TickRequest(n, t, now);
            TickRequests(n, [t], now) == if erase then m.(reqs := m.reqs - {t}) else m
  {
    hide TickRequest;
    var m := TickRequest(n, t, now).0;
    assert m.reqs - {} == m.reqs;
    assert [t][..0] == [];
    assert VisitRequests(n, [t][..0], now) == (n, {});
  }

  lemma AttemptStarts(n: Node, proxy: BdId, src: BdId, dest: BdId, delay: int, now: int)
    requires n.allowed & MODE_RELAY != 0 && src.id == n.own
    requires Tuple(n.own, proxy.id, dest.id) !in n.conns && !FindSimilar(n.conns, dest.id, src.id)
    ensures var k, c := Tuple(n.own, proxy.id, dest.id), ConnectionSetup(proxy, src, dest, MODE_RELAY, delay, now);
            var (m, ok) := StartAttempt(n, proxy, src, dest, MODE_RELAY, delay, now);
            && ok && m.own == n.own && m.allowed == n.allowed && m.reqs == n.reqs && m.conns == n.conns[k := c]
            && m.sent == n.sent + [Packet(n.own, proxy, ConnectMsg(MsgRequest, src, c.destConnAddr, MODE_RELAY, delay,
                                                                   ANSWER_OKAY))]
  {
  }

  lemma SetupWaits(n: Node, m: Node, proxy: BdId, src: BdId, dest: BdId, delay: int, now: int)
    requires m.own == n.own && src.id == n.own
    requires var k, c := Tuple(n.own, proxy.id, dest.id), ConnectionSetup(proxy, src, dest, MODE_RELAY, delay, now);
             && m.conns == n.conns[k := c]
             && m.sent == n.sent + [Packet(n.own, proxy, ConnectMsg(MsgRequest, src, c.destConnAddr, MODE_RELAY, delay,
                                                                    ANSWER_OKAY))]
    ensures Waits(m, proxy.id, dest.id) && forall pkt :: pkt in n.sent ==> pkt in m.sent
  {
    var pkt := m.sent[|n.sent|];
    assert pkt in m.sent && IsRequest(pkt, n.own, proxy.id, dest.id);
  }

  /** The request takes its next proxy and sends a REQUEST to it. */
  lemma AttemptAct(n: Node, p: NodeId, t: NodeId, now: int)
    requires n.reqs.Keys == {t} && n.own != t && n.allowed & MODE_RELAY != 0 && p != t && p != n.own
    requires var r := n.reqs[t];
             && r.state == Ready && r.goodProxies != [] && r.goodProxies[0].id.id == p
             && r.target == t && r.mode == MODE_RELAY
    requires Tuple(n.own, p, t) !in n.conns && forall k :: k in n.conns ==> k.dest == t
    ensures var m := TickRequests(n, [t], now);
            && m.own == n.own && m.allowed == n.allowed
            && m.reqs == map[t := PopProxy(n.reqs[t], now)]
            && Waits(m, p, t) && (forall pkt :: pkt in n.sent ==> pkt in m.sent)
            && m.conns == n.conns[Tuple(n.own, p, t) := m.conns[Tuple(n.own, p, t)]]
  {
    hide StartAttempt, StartRequest, TickRequests, Waits;
    var r := n.reqs[t];
    var proxy, src, dest := r.goodProxies[0].id, BdId(n.own, r.localAddr), BdId(t, NO_ADDR);
    var n1, delay := RelayedSteps(n, t, now);
    AttemptStarts(n1, proxy, src, dest, delay, now);
    var m := StartAttempt(n1, proxy, src, dest, MODE_RELAY, delay, now).0;
    TickOnly(n, t, now);
    assert TickRequests(n, [t], now) == m;
    OnlyRequest(n.reqs, t, PopProxy(r, now));
    SetupWaits(n, m, proxy, src, dest, delay, now);
  }

  lemma OnlyRequest(reqs: map<NodeId, Request>, t: NodeId, r: Request)
    requires reqs.Keys == {t}
    ensures reqs[t := r] == map[t := r]
  {
  }

  lemma RelayedSteps(n: Node, t: NodeId, now: int) returns (n1: Node, delay: int)
    requires t in n.reqs
    requires var r := n.reqs[t];
             r.goodProxies != [] && r.mode == MODE_RELAY && r.target == t && r.goodProxies[0].id.id != t
    ensures n1 == n.(reqs := n.reqs[t := PopProxy(n.reqs[t], now)])
    ensures StartRequest(n, t, now)
            == StartAttempt(n1, n.reqs[t].goodProxies[0].id, BdId(n.own, n.reqs[t].localAddr), BdId(t, NO_ADDR),
                            MODE_RELAY, delay, now)
  {
    hide StartAttempt;
    var r := n.reqs[t];
    var left := r.delay - (now - r.requestTS);
    delay := if left > 0 then left else 0;
    n1 := n.(reqs := n.reqs[t := PopProxy(r, now)]);
  }

  predicate IsRefusal(pkt: Packet, own: NodeId, p: NodeId, t: NodeId) {
    && pkt.from == p && pkt.to.id == own
    && pkt.msg.kind == MsgReply && pkt.msg.src.id == own && pkt.msg.dest.id == t && pkt.msg.mode == MODE_RELAY
    && pkt.msg.status == OVERLOADED
  }

  /** The idle relay files the request and asks the layer above. */
  lemma RelayAct(n: Node, pkt: Packet, own: NodeId, t: NodeId, now: int)
    requires n.conns == map[] && n.allowed & MODE_RELAY != 0
    requires IsRequest(pkt, own, n.own, t) && n.own != own && n.own != t && own != t
    ensures var m := Receive(n, BdId(own, NO_ADDR), pkt.msg, Some(BdId(t, NO_ADDR)), now);
            var k := Tuple(own, n.own, t);
            && m.own == n.own && m.allowed == n.allowed && m.sent == n.sent
            && m.conns.Keys == {k} && m.conns[k].mode == MODE_RELAY && m.conns[k].point == MidPoint
            && m.conns[k].srcId.id == own && m.conns[k].srcConnAddr.id == own && m.conns[k].destConnAddr.id == t
  {
    var id, msg := BdId(own, NO_ADDR), pkt.msg;
    var k := KeyBySender(n.own, id, msg.src, msg.dest);
    assert Objection(n, k, msg.mode).None?;
    var c := ConnectionRequestProxy(id, msg.src, n.own, BdId(t, NO_ADDR), MODE_RELAY, msg.param, now);
    assert n.conns[k := c].Keys == {k};
  }

  /** That layer refuses, being overloaded. */
  lemma RefuseAct(n: Node, own: NodeId, t: NodeId)
    requires var k := Tuple(own, n.own, t);
             && n.conns.Keys == {k} && n.conns[k].mode == MODE_RELAY && n.conns[k].point == MidPoint
             && n.conns[k].srcId.id == own && n.conns[k].srcConnAddr.id == own && n.conns[k].destConnAddr.id == t
    ensures var m := AuthNo(n, BdId(own, NO_ADDR), BdId(n.own, NO_ADDR), BdId(t, NO_ADDR), MODE_RELAY, MidPoint,
                            ERROR_OVERLOADED);
            && m.own == n.own && m.allowed == n.allowed && m.conns == map[]
            && exists pkt :: pkt in m.sent && IsRefusal(pkt, own, n.own, t)
  {
    var c := n.conns[Tuple(own, n.own, t)];
    var pkt := Packet(n.own, c.srcId, ConnectMsg(MsgReply, c.srcConnAddr, c.destConnAddr, MODE_RELAY, 0, OVERLOADED));
    var m := AuthNo(n, BdId(own, NO_ADDR), BdId(n.own, NO_ADDR), BdId(t, NO_ADDR), MODE_RELAY, MidPoint,
                    ERROR_OVERLOADED);
    assert m.sent == n.sent + [pkt];
    assert IsRefusal(pkt, own, n.own, t);
    assert m.conns == map[];
  }

  /** The refusal ends the attempt, and the request at hand pays for it. */
  lemma FailAct(n: Node, pkt: Packet, p: NodeId, t: NodeId, now: int)
    requires Waits(n, p, t) && IsRefusal(pkt, n.own, p, t) && t in n.reqs && n.own != t
    ensures var m := Receive(n, BdId(p, NO_ADDR), pkt.msg, None, now);
            && m.own == n.own && m.allowed == n.allowed && m.sent == n.sent
            && m.conns == n.conns - {Tuple(n.own, p, t)}
            && m.reqs == n.reqs[t := FailRequest(n.reqs[t], MODE_RELAY, OVERLOADED, now)]
  {
    OverloadedIsRecycled();
    var k := KeyBySender(n.own, BdId(p, NO_ADDR), pkt.msg.src, pkt.msg.dest);
    assert k == Tuple(n.own, p, t);
    FailEndAct(n, n.conns[k], t, now);
  }

  lemma FailEndAct(n: Node, c: Connection, t: NodeId, now: int)
    requires c.point == StartPoint && c.mode == MODE_RELAY && c.destId.id == t && t in n.reqs
    ensures var m := FailAtEnd(n, c, OVERLOADED, now);
            && m.own == n.own && m.allowed == n.allowed && m.sent == n.sent && m.conns == n.conns
            && m.reqs == n.reqs[t := FailRequest(n.reqs[t], MODE_RELAY, OVERLOADED, now)]
  {
    OverloadedIsRecycled();
  }

  // ----------------------------------------------------- the stage goes on

  lemma WaitsStill(n: Node, m: Node, p: NodeId, t: NodeId)
    requires Waits(n, p, t) && m.own == n.own && (forall pkt :: pkt in n.sent ==> pkt in m.sent)
    requires var k := Tuple(n.own, p, t); k in m.conns && m.conns[k] == n.conns[k]
    ensures Waits(m, p, t)
  {
  }

  /** An action of `own` that leaves the stage with the attempts `open'`. */
  lemma StageOwn(net: Net, own: NodeId, t: NodeId, relays: set<NodeId>, open: set<NodeId>, a: Action,
                 open': set<NodeId>)
    requires Stage(net, own, t, relays, open) && Enabled(net, a) && Where(a) == own && open' <= relays
    requires var m := Act(net.nodes[own], a);
             && m.allowed == net.nodes[own].allowed
             && (forall k :: k in m.conns <==> k.src == own && k.proxy in open' && k.dest == t)
             && (forall p :: p in open' ==> Waits(m, p, t))
    ensures Stage(Apply(net, a), own, t, relays, open')
    ensures Apply(net, a).nodes[own] == Act(net.nodes[own], a)
  {
  }

  /** An action of `own` that touches requests only. */
  lemma StageRequests(net: Net, own: NodeId, t: NodeId, relays: set<NodeId>, open: set<NodeId>, a: Action)
    requires Stage(net, own, t, relays, open) && Enabled(net, a) && Where(a) == own
    requires var n, m := net.nodes[own], Act(net.nodes[own], a);
             m.allowed == n.allowed && m.conns == n.conns && m.sent == n.sent
    ensures Stage(Apply(net, a), own, t, relays, open)
    ensures Apply(net, a).nodes[own] == Act(net.nodes[own], a)
  {
    forall p | p in open
      ensures Waits(Act(net.nodes[own], a), p, t)
    {
      WaitsStill(net.nodes[own], Act(net.nodes[own], a), p, t);
    }
    StageOwn(net, own, t, relays, open, a, open);
  }

  lemma StageAttempt(net: Net, own: NodeId, t: NodeId, relays: set<NodeId>, open: set<NodeId>, p: NodeId, now: int)
    requires Stage(net, own, t, relays, open) && p in relays && p !in open
    requires net.nodes[own].reqs.Keys == {t}
    requires var r := net.nodes[own].reqs[t];
             && r.state == Ready && r.goodProxies != [] && r.goodProxies[0].id.id == p
             && r.target == t && r.mode == MODE_RELAY
    ensures var after := Apply(net, TickReqs(own, [t], now));
            && Stage(after, own, t, relays, open + {p})
            && after.nodes[own].reqs == map[t := PopProxy(net.nodes[own].reqs[t], now)]
  {
    hide Waits, TickRequests, Apply;
    var n, a := net.nodes[own], TickReqs(own, [t], now);
    AttemptAct(n, p, t, now);
    var m := TickRequests(n, [t], now);
    assert Enabled(net, a) && m == Act(n, a);
    hide Act, Enabled;
    forall q | q in open + {p}
      ensures Waits(m, q, t)
    {
      if q != p {
        WaitsStill(n, m, q, t);
      }
    }
    StageOwn(net, own, t, relays, open, a, open + {p});
  }

  function Answer(own: NodeId, p: NodeId, t: NodeId): Action {
    Refuse(p, BdId(own, NO_ADDR), BdId(p, NO_ADDR), BdId(t, NO_ADDR), ERROR_OVERLOADED)
  }

  /** An open attempt comes to its relay. */
  lemma RelayTakes(net: Net, own: NodeId, t: NodeId, relays: set<NodeId>, open: set<NodeId>, p: NodeId, now: int)
    returns (request: Packet)
    requires Stage(net, own, t, relays, open) && p in open
    ensures var after := Apply(net, Deliver(request, NO_ADDR, Some(BdId(t, NO_ADDR)), now));
            var k := Tuple(own, p, t);
            && p in after.nodes && after.nodes == net.nodes[p := after.nodes[p]]
            && after.nodes[p].own == p && after.nodes[p].allowed == net.nodes[p].allowed
            && after.nodes[p].conns.Keys == {k}
            && var c := after.nodes[p].conns[k];
               && c.mode == MODE_RELAY && c.point == MidPoint
               && c.srcId.id == own && c.srcConnAddr.id == own && c.destConnAddr.id == t
  {
    assert Waits(net.nodes[own], p, t);
    request :| request in net.nodes[own].sent && IsRequest(request, own, p, t);
    RelayAct(net.nodes[p], request, own, t, now);
    assert Enabled(net, Deliver(request, NO_ADDR, Some(BdId(t, NO_ADDR)), now));
  }

  lemma RelayRefuses(net: Net, own: NodeId, p: NodeId, t: NodeId) returns (refusal: Packet)
    requires p in net.nodes && net.nodes[p].own == p
    requires var k := Tuple(own, p, t);
             && net.nodes[p].conns.Keys == {k}
             && var c := net.nodes[p].conns[k];
                && c.mode == MODE_RELAY && c.point == MidPoint
                && c.srcId.id == own && c.srcConnAddr.id == own && c.destConnAddr.id == t
    ensures var after := Apply(net, Answer(own, p, t));
            && p in after.nodes && after.nodes == net.nodes[p := after.nodes[p]]
            && after.nodes[p].own == p && after.nodes[p].allowed == net.nodes[p].allowed
            && after.nodes[p].conns == map[]
            && refusal in after.nodes[p].sent && IsRefusal(refusal, own, p, t)
  {
    RefuseAct(net.nodes[p], own, t);
    var after := Apply(net, Answer(own, p, t));
    assert Enabled(net, Answer(own, p, t));
    refusal :| refusal in after.nodes[p].sent && IsRefusal(refusal, own, p, t);
  }

  lemma StageFails(net: Net, own: NodeId, t: NodeId, relays: set<NodeId>, open: set<NodeId>, p: NodeId,
                   refusal: Packet, now: int)
    requires Stage(net, own, t, relays, open) && p in open && t in net.nodes[own].reqs
    requires refusal in net.nodes[p].sent && IsRefusal(refusal, own, p, t)
    ensures var after := Apply(net, Deliver(refusal, NO_ADDR, None, now));
            var rs := net.nodes[own].reqs;
            && Stage(after, own, t, relays, open - {p})
            && after.nodes[own].reqs == rs[t := FailRequest(rs[t], MODE_RELAY, OVERLOADED, now)]
  {
    hide Waits;
    var n, a := net.nodes[own], Deliver(refusal, NO_ADDR, None, now);
    FailAct(n, refusal, p, t, now);
    assert Enabled(net, a);
    forall q | q in open - {p}
      ensures Waits(Act(n, a), q, t)
    {
      WaitsNext(n, Act(n, a), p, q, t);
    }
    StageOwn(net, own, t, relays, open, a, open - {p});
  }

  lemma WaitsNext(n: Node, m: Node, p: NodeId, q: NodeId, t: NodeId)
    requires Waits(n, q, t) && p != q && m.own == n.own && m.sent == n.sent && m.conns == n.conns - {Tuple(n.own, p, t)}
    ensures Waits(m, q, t)
  {
    WaitsStill(n, m, q, t);
  }

  /** The actions by which an open attempt is refused. */
  lemma StageRefusal(net: Net, own: NodeId, t: NodeId, relays: set<NodeId>, open: set<NodeId>, p: NodeId, now: int)
    returns (take: Action, fail: Action)
    requires Stage(net, own, t, relays, open) && p in open && t in net.nodes[own].reqs
    ensures TimeOf(take) == TimeOf(fail) == Some(now)
    ensures var taken := Apply(net, take);
            var refused := Apply(taken, Answer(own, p, t));
            var failed := Apply(refused, fail);
            var rs := net.nodes[own].reqs;
            && taken.nodes[own] == refused.nodes[own] == net.nodes[own]
            && Stage(failed, own, t, relays, open - {p})
            && failed.nodes[own].reqs == rs[t := FailRequest(rs[t], MODE_RELAY, OVERLOADED, now)]
  {
    hide Apply;
    var request := RelayTakes(net, own, t, relays, open, p, now);
    take := Deliver(request, NO_ADDR, Some(BdId(t, NO_ADDR)), now);
    var taken := Apply(net, take);
    var refusal := RelayRefuses(taken, own, p, t);
    var refused := Apply(taken, Answer(own, p, t));
    fail := Deliver(refusal, NO_ADDR, None, now);
    assert Stage(refused, own, t, relays, open);
    StageFails(refused, own, t, relays, open, p, refusal, now);
  }

  // -------------------------------------------------------------- the accounts

  /**
   * A network, the node that asks, its target, the relays, the action that makes
   * the request, and how many attempts are open by then.
   */
  datatype Cast = Cast(net: Net, own: NodeId, t: NodeId, relays: set<NodeId>, first: nat, before: nat)

  /** Where a run of the one request stands: its attempts, the proxies inserted, and its state. */
  ghost predicate Stands(c: Cast, acts: seq<Action>, tried: nat, inserted: nat, r: Request) {
    && Requested(c.net, acts, c.first, c.own, c.t)
    && Run(c.net, acts).nodes[c.own].reqs == map[c.t := r]
    && |OpenBefore(c.net, acts, c.first, c.own, c.t)| == c.before
    && var rs := RequestHistory(c.net, acts, c.first, c.own, c.t);
       Attempted(rs) == tried && Inserted(rs) == inserted
  }

  lemma StandsNext(c: Cast, acts: seq<Action>, tried: nat, inserted: nat, r: Request, a: Action, r': Request)
    requires Stands(c, acts, tried, inserted, r)
    requires Apply(Run(c.net, acts), a).nodes[c.own].reqs == map[c.t := r'] && !Inserts(r, r')
    ensures Stands(c, acts + [a], tried + (if Attempts(r, r') then 1 else 0), inserted, r')
  {
    hide Apply, Attempted, Inserted;
    RunOne(c.net, acts, a);
    var all := acts + [a];
    assert all[..|all| - 1] == acts && all[..c.first - 1] == acts[..c.first - 1];
    assert Requested(c.net, all, c.first, c.own, c.t);
    var rs := RequestHistory(c.net, acts, c.first, c.own, c.t);
    assert RequestHistory(c.net, all, c.first, c.own, c.t) == rs + [r'];
    CountOne(rs, r');
  }

  // ---------------------------------------------------------------- the rounds

  /** Where a run has got to by `now`. */
  ghost predicate At(c: Cast, acts: seq<Action>, now: int, open: set<NodeId>, tried: nat, inserted: nat, r: Request) {
    && Stage(Run(c.net, acts), c.own, c.t, c.relays, open) && InTime(acts, now)
    && Stands(c, acts, tried, inserted, r)
  }

  /** A request whose proxies are all relays of the cast. */
  predicate Relayed(c: Cast, r: Request) {
    && r.target == c.t && r.mode == MODE_RELAY && r.goodProxies != []
    && forall i :: 0 <= i < |r.goodProxies| ==> r.goodProxies[i].id.id in c.relays
  }

  lemma AttemptGoesOn(c: Cast, acts: seq<Action>, now: int, open: set<NodeId>, tried: nat, inserted: nat, r: Request)
    returns (all: seq<Action>)
    requires At(c, acts, now, open, tried, inserted, r)
    requires Relayed(c, r) && r.state == Ready && r.goodProxies[0].id.id !in open
    ensures At(c, all, now, open + {r.goodProxies[0].id.id}, tried + 1, inserted, PopProxy(r, now))
    ensures acts <= all
  {
    hide Stage, Apply, Requested, RequestHistory, OpenBefore;
    var a := TickReqs(c.own, [c.t], now);
    all := acts + [a];
    RunOne(c.net, acts, a);
    StageAttempt(Run(c.net, acts), c.own, c.t, c.relays, open, r.goodProxies[0].id.id, now);
    InTimeOne(acts, a, now, now);
    StandsNext(c, acts, tried, inserted, r, a, PopProxy(r, now));
  }

  lemma AgeAct(n: Node, t: NodeId, now: int)
    requires n.reqs.Keys == {t} && n.reqs[t].state != Ready
    ensures var m, r := TickRequests(n, [t], now), n.reqs[t];
            && m.allowed == n.allowed && m.conns == n.conns && m.sent == n.sent
            && m.reqs == if r.state == Done then map[] else map[t := AgeRequest(r, now)]
  {
    TickOnly(n, t, now);
  }

  lemma StageAges(net: Net, own: NodeId, t: NodeId, relays: set<NodeId>, open: set<NodeId>, now: int)
    requires Stage(net, own, t, relays, open) && net.nodes[own].reqs.Keys == {t}
    requires net.nodes[own].reqs[t].state != Ready
    ensures var after, r := Apply(net, TickReqs(own, [t], now)), net.nodes[own].reqs[t];
            && Stage(after, own, t, relays, open)
            && after.nodes[own].reqs == if r.state == Done then map[] else map[t := AgeRequest(r, now)]
  {
    hide TickRequests;
    AgeAct(net.nodes[own], t, now);
    assert Enabled(net, TickReqs(own, [t], now));
    StageRequests(net, own, t, relays, open, TickReqs(own, [t], now));
  }

  lemma AgeGoesOn(c: Cast, acts: seq<Action>, now: int, later: int, open: set<NodeId>, tried: nat, inserted: nat,
                  r: Request)
    returns (all: seq<Action>)
    requires At(c, acts, now, open, tried, inserted, r) && now <= later && r.state != Ready && r.state != Done
    ensures At(c, all, later, open, tried, inserted, AgeRequest(r, later))
    ensures acts <= all
  {
    hide Stage, Apply, Requested, RequestHistory, OpenBefore;
    var a := TickReqs(c.own, [c.t], later);
    all := acts + [a];
    RunOne(c.net, acts, a);
    StageAges(Run(c.net, acts), c.own, c.t, c.relays, open, later);
    InTimeOne(acts, a, now, later);
    StandsNext(c, acts, tried, inserted, r, a, AgeRequest(r, later));
  }

  lemma RefusalGoesOn(c: Cast, acts: seq<Action>, now: int, open: set<NodeId>, tried: nat, inserted: nat, r: Request,
                      p: NodeId)
    returns (all: seq<Action>)
    requires At(c, acts, now, open, tried, inserted, r) && p in open
    ensures At(c, all, now, open - {p}, tried, inserted, FailRequest(r, MODE_RELAY, OVERLOADED, now))
    ensures acts <= all
  {
    hide Stage, Apply, Requested, RequestHistory, OpenBefore;
    var take, fail := StageRefusal(Run(c.net, acts), c.own, c.t, c.relays, open, p, now);
    var answer, failed := Answer(c.own, p, c.t), FailRequest(r, MODE_RELAY, OVERLOADED, now);
    FailKeeps(r, MODE_RELAY, OVERLOADED, now);
    StandsNext(c, acts, tried, inserted, r, take, r);
    RunOne(c.net, acts, take);
    StandsNext(c, acts + [take], tried, inserted, r, answer, r);
    RunOne(c.net, acts + [take], answer);
    StandsNext(c, acts + [take] + [answer], tried, inserted, r, fail, failed);
    RunOne(c.net, acts + [take] + [answer], fail);
    all := acts + [take] + [answer] + [fail];
    InTimeOne(acts, take, now, now);
    InTimeOne(acts + [take], answer, now, now);
    InTimeOne(acts + [take] + [answer], fail, now, now);
  }

  /** An attempt, the answer of its overloaded relay, and the end of the pause. */
  lemma Round(c: Cast, acts: seq<Action>, now: int, tried: nat, inserted: nat, r: Request)
    returns (all: seq<Action>, r': Request)
    requires At(c, acts, now, {}, tried, inserted, r) && Relayed(c, r) && r.state == Ready
    ensures At(c, all, now + 2, {}, tried + 1, inserted, r') && Relayed(c, r')
    ensures |r'.goodProxies| == |r.goodProxies| && r'.recycled == r.recycled + 1
    ensures r'.state == if r'.recycled <= 3 * |r.goodProxies| then Ready else Done
  {
    hide At;
    var p := r.goodProxies[0].id.id;
    all := AttemptGoesOn(c, acts, now, {}, tried, inserted, r);
    var r1 := PopProxy(r, now);
    all := RefusalGoesOn(c, all, now, {} + {p}, tried + 1, inserted, r1, p);
    assert {} + {p} - {p} == {};
    OverloadedIsRecycled();
    var r2 := FailRequest(r1, MODE_RELAY, OVERLOADED, now);
    assert r2.goodProxies == r.goodProxies[1..] + [ProxyId(r.goodProxies[0].id, r.goodProxies[0].srcType, OVERLOADED)];
    all := AgeGoesOn(c, all, now, now + 2, {}, tried + 1, inserted, r2);
    r' := AgeRequest(r2, now + 2);
  }

  /** From then on every proxy is recycled until the request is given up. */
  lemma Rounds(c: Cast, acts: seq<Action>, now: int, tried: nat, inserted: nat, r: Request)
    returns (all: seq<Action>, end: int, r': Request)
    requires At(c, acts, now, {}, tried, inserted, r) && Relayed(c, r)
    requires r.state == Ready && r.recycled <= 3 * |r.goodProxies|
    ensures At(c, all, end, {}, tried + 3 * |r.goodProxies| - r.recycled + 1, inserted, r') && r'.state == Done
    ensures r'.recycled == 3 * |r.goodProxies| + 1
    decreases 3 * |r.goodProxies| - r.recycled
  {
    hide At;
    all, r' := Round(c, acts, now, tried, inserted, r);
    end := now + 2;
    if r'.state == Ready {
      all, end, r' := Rounds(c, all, end, tried + 1, inserted, r');
    }
  }

  // ------------------------------------------------------------- the beginning

  lemma StageAsks(net: Net, own: NodeId, t: NodeId, relays: set<NodeId>, open: set<NodeId>, proxies: seq<ProxyId>,
                  now: int)
    requires Stage(net, own, t, relays, open) && net.nodes[own].reqs == map[]
    ensures var after := Apply(net, Ask(own, NO_ADDR, t, MODE_RELAY, 0, proxies, [], now));
            && Stage(after, own, t, relays, open)
            && after.nodes[own].reqs == map[t := Asked(t, proxies, now)]
  {
    StageRequests(net, own, t, relays, open, Ask(own, NO_ADDR, t, MODE_RELAY, 0, proxies, [], now));
  }

  function Asked(t: NodeId, proxies: seq<ProxyId>, now: int): Request {
    FreshRequest(NO_ADDR, t, MODE_RELAY, 0, proxies, [], now)
  }

  lemma AtLater(c: Cast, acts: seq<Action>, now: int, later: int, open: set<NodeId>, tried: nat, inserted: nat,
                r: Request)
    requires At(c, acts, now, open, tried, inserted, r) && now <= later
    ensures At(c, acts, later, open, tried, inserted, r)
  {
    InTimeLater(acts, now, later);
  }

  lemma Asking(c: Cast, acts: seq<Action>, now: int, open: set<NodeId>, proxies: seq<ProxyId>)
    requires Stage(Run(c.net, acts), c.own, c.t, c.relays, open) && InTime(acts, now) && c.own in c.net.nodes
    requires var n := Run(c.net, acts).nodes[c.own]; n.reqs == map[] && |Open(n, c.t)| == c.before
    requires c.first == |acts| + 1
    ensures var a := Ask(c.own, NO_ADDR, c.t, MODE_RELAY, 0, proxies, [], now);
            At(c, acts + [a], now, open, 0, |proxies|, Asked(c.t, proxies, now))
  {
    hide Stage, Apply;
    var a := Ask(c.own, NO_ADDR, c.t, MODE_RELAY, 0, proxies, [], now);
    var all := acts + [a];
    assert all[..|all| - 1] == acts;
    RunOne(c.net, acts, a);
    StageAsks(Run(c.net, acts), c.own, c.t, c.relays, open, proxies, now);
    InTimeOne(acts, a, now, now);
    assert Requested(c.net, all, c.first, c.own, c.t);
    assert RequestHistory(c.net, all, c.first, c.own, c.t) == [Asked(c.t, proxies, now)];
  }

  /** The run with the new request, when it is ready to start. */
  lemma Begins(c: Cast, acts: seq<Action>, now: int, open: set<NodeId>, proxies: seq<ProxyId>)
    returns (all: seq<Action>, r: Request)
    requires Stage(Run(c.net, acts), c.own, c.t, c.relays, open) && InTime(acts, now) && c.own in c.net.nodes
    requires var n := Run(c.net, acts).nodes[c.own]; n.reqs == map[] && |Open(n, c.t)| == c.before
    requires c.first == |acts| + 1
    requires proxies != [] && forall i :: 0 <= i < |proxies| ==> proxies[i].id.id in c.relays
    ensures At(c, all, now + 11, open, 0, |proxies|, r)
    ensures Relayed(c, r) && r.state == Ready && r.goodProxies == proxies && r.recycled == 0
  {
    hide At, Stage, Run;
    var a := Ask(c.own, NO_ADDR, c.t, MODE_RELAY, 0, proxies, [], now);
    all := acts + [a];
    r := Asked(c.t, proxies, now);
    Asking(c, acts, now, open, proxies);
    if r.state == Paused {
      all := AgeGoesOn(c, all, now, now + 11, open, 0, |proxies|, r);
      r := AgeRequest(r, now + 11);
    } else {
      AtLater(c, all, now, now + 11, open, 0, |proxies|, r);
    }
  }

  // ------------------------------------------------------------- the two runs

  /** A network in which nothing has happened yet, with a node that may use relays and relays that allow it. */
  ghost predicate Ground(net: Net, own: NodeId, t: NodeId, relays: set<NodeId>) {
    && Initial(net) && own in net.nodes && own != t && own !in relays && t !in relays
    && net.nodes[own].allowed & MODE_RELAY != 0
    && forall p :: p in relays ==> p in net.nodes && net.nodes[p].allowed & MODE_RELAY != 0
  }

  lemma GroundIsStage(net: Net, own: NodeId, t: NodeId, relays: set<NodeId>)
    requires Ground(net, own, t, relays)
    ensures Stage(Run(net, []), own, t, relays, {}) && InTime([], 0) && Run(net, []).nodes[own].reqs == map[]
    ensures Open(Run(net, []).nodes[own], t) == {}
  {
    assert Run(net, []) == net;
  }

  /**
   * In a run with time going forward, the `first`-th action makes a request that
   * ends given up after `tried` attempts, with `inserted` proxies ever inserted,
   * `before` attempts open when it was made, and a proxy recycled for each of both.
   */
  ghost predicate GivenUp(net: Net, acts: seq<Action>, end: int, first: nat, own: NodeId, t: NodeId,
                          before: nat, inserted: nat, tried: nat)
  {
    && InTime(acts, end) && Requested(net, acts, first, own, t)
    && |OpenBefore(net, acts, first, own, t)| == before
    && var rs := RequestHistory(net, acts, first, own, t);
       && Inserted(rs) == inserted && Attempted(rs) == tried
       && rs[|rs| - 1].state == Done && rs[|rs| - 1].recycled == tried + before
  }

  lemma AtGivesUp(c: Cast, acts: seq<Action>, end: int, tried: nat, inserted: nat, r: Request)
    requires At(c, acts, end, {}, tried, inserted, r) && r.state == Done && r.recycled == tried + c.before
    ensures GivenUp(c.net, acts, end, c.first, c.own, c.t, c.before, inserted, tried)
  {
    hide Stage, Requested, InTime, OpenBefore;
  }

  /** With overloaded relays for its m proxies a request makes exactly 3m + 1 attempts before it is given up. */
  lemma BoundIsReached(net: Net, own: NodeId, t: NodeId, relays: set<NodeId>, proxies: seq<ProxyId>)
    requires Ground(net, own, t, relays)
    requires proxies != [] && forall i :: 0 <= i < |proxies| ==> proxies[i].id.id in relays
    ensures var m, bound := |proxies|, 3 * |proxies| + 1;
            exists acts, end :: GivenUp(net, acts, end, 1, own, t, 0, m, bound)
  {
    hide At, Stage, Initial, GivenUp, Run;
    GroundIsStage(net, own, t, relays);
    var c := Cast(net, own, t, relays, 1, 0);
    var acts, r := Begins(c, [], 0, {}, proxies);
    var end;
    acts, end, r := Rounds(c, acts, 11, 0, |proxies|, r);
    AtGivesUp(c, acts, end, 3 * |proxies| + 1, |proxies|, r);
  }

  /** The user gives up a request that has an attempt open, and the timer drops it. */
  lemma StageCancels(net: Net, own: NodeId, t: NodeId, relays: set<NodeId>, open: set<NodeId>, now: int)
    requires Stage(net, own, t, relays, open) && net.nodes[own].reqs.Keys == {t}
    ensures var killed := Apply(net, Cancel(own, t, now));
            var dropped := Apply(killed, TickReqs(own, [t], now));
            && Stage(dropped, own, t, relays, open) && dropped.nodes[own].reqs == map[]
  {
    hide TickRequests, Waits;
    var killed := Apply(net, Cancel(own, t, now));
    StageRequests(net, own, t, relays, open, Cancel(own, t, now));
    assert killed.nodes[own].reqs.Keys == {t} && killed.nodes[own].reqs[t].state == Done;
    StageAges(killed, own, t, relays, open, now);
  }

  lemma CancelGoesOn(c: Cast, acts: seq<Action>, now: int, open: set<NodeId>, tried: nat, inserted: nat, r: Request)
    returns (all: seq<Action>)
    requires At(c, acts, now, open, tried, inserted, r)
    ensures Stage(Run(c.net, all), c.own, c.t, c.relays, open) && InTime(all, now)
    ensures Run(c.net, all).nodes[c.own].reqs == map[]
  {
    hide Stage, Apply, Requested, RequestHistory, OpenBefore;
    var kill, drop := Cancel(c.own, c.t, now), TickReqs(c.own, [c.t], now);
    all := acts + [kill] + [drop];
    RunOne(c.net, acts, kill);
    RunOne(c.net, acts + [kill], drop);
    StageCancels(Run(c.net, acts), c.own, c.t, c.relays, open, now);
    InTimeOne(acts, kill, now, now);
    InTimeOne(acts + [kill], drop, now, now);
  }

  /** The user gives up the request, and the timer has not dropped it yet. */
  lemma KillGoesOn(c: Cast, acts: seq<Action>, now: int, open: set<NodeId>, tried: nat, inserted: nat, r: Request)
    returns (all: seq<Action>)
    requires At(c, acts, now, open, tried, inserted, r)
    ensures At(c, all, now, open, tried, inserted, FinishRequest(r, ERROR_USER, now)) && acts <= all
  {
    hide Stage, Apply, Requested, RequestHistory, OpenBefore;
    var a := Cancel(c.own, c.t, now);
    all := acts + [a];
    RunOne(c.net, acts, a);
    StageKills(Run(c.net, acts), c.own, c.t, c.relays, open, now);
    InTimeOne(acts, a, now, now);
    StandsNext(c, acts, tried, inserted, r, a, FinishRequest(r, ERROR_USER, now));
  }

  lemma StageKills(net: Net, own: NodeId, t: NodeId, relays: set<NodeId>, open: set<NodeId>, now: int)
    requires Stage(net, own, t, relays, open) && net.nodes[own].reqs.Keys == {t}
    ensures var killed := Apply(net, Cancel(own, t, now));
            && Stage(killed, own, t, relays, open)
            && killed.nodes[own].reqs == map[t := FinishRequest(net.nodes[own].reqs[t], ERROR_USER, now)]
  {
    StageRequests(net, own, t, relays, open, Cancel(own, t, now));
    OnlyRequest(net.nodes[own].reqs, t, FinishRequest(net.nodes[own].reqs[t], ERROR_USER, now));
  }

  /** The request made by the first action of the run has this state after so many attempts. */
  ghost predicate HasTried(net: Net, acts: seq<Action>, own: NodeId, t: NodeId, tried: nat, state: ReqState) {
    && Requested(net, acts, 1, own, t)
    && var rs := RequestHistory(net, acts, 1, own, t); Attempted(rs) == tried && rs[|rs| - 1].state == state
  }

  lemma AtHasTried(c: Cast, acts: seq<Action>, now: int, open: set<NodeId>, tried: nat, inserted: nat, r: Request)
    requires At(c, acts, now, open, tried, inserted, r) && c.first == 1
    ensures HasTried(c.net, acts, c.own, c.t, tried, r.state) && InTime(acts, now)
  {
    hide Stage, Requested, InTime, OpenBefore;
  }

  /** The request has ended after one attempt in a first part of the run, and makes another attempt later. */
  ghost predicate ComesBack(net: Net, early: seq<Action>, late: seq<Action>, end: int, own: NodeId, t: NodeId) {
    && early <= late && InTime(late, end)
    && HasTried(net, early, own, t, 1, Done) && HasTried(net, late, own, t, 2, InProgress)
  }

  /**
   * A request that the user gave up is brought back by the late refusal of its
   * open attempt, and tries again.
   */
  lemma CancelledTriesAgain(net: Net, own: NodeId, t: NodeId, p: NodeId)
    requires Ground(net, own, t, {p})
    ensures exists early, late, end :: ComesBack(net, early, late, end, own, t)
  {
    hide At, Stage, Initial, Run, HasTried, InTime;
    GroundIsStage(net, own, t, {p});
    var viaP := ProxyId(BdId(p, NO_ADDR), QueryResult, 0);
    var c := Cast(net, own, t, {p}, 1, 0);
    var acts, r := Begins(c, [], 0, {}, [viaP]);
    acts := AttemptGoesOn(c, acts, 11, {}, 0, 1, r);
    r := PopProxy(r, 11);
    var early := KillGoesOn(c, acts, 11, {} + {p}, 1, 1, r);
    r := FinishRequest(r, ERROR_USER, 11);
    AtHasTried(c, early, 11, {} + {p}, 1, 1, r);
    var late := Revived(c, early, r, p);
    assert ComesBack(net, early, late, 13, own, t);
  }

  lemma Revived(c: Cast, early: seq<Action>, r0: Request, p: NodeId) returns (late: seq<Action>)
    requires At(c, early, 11, {} + {p}, 1, 1, r0) && c.first == 1 && c.relays == {p}
    requires r0.target == c.t && r0.mode == MODE_RELAY && r0.goodProxies == [] && r0.recycled == 0
    requires r0.currentAttempt.id == p
    ensures early <= late && HasTried(c.net, late, c.own, c.t, 2, InProgress) && InTime(late, 13)
  {
    hide At, HasTried, InTime;
    OverloadedIsRecycled();
    late := RefusalGoesOn(c, early, 11, {} + {p}, 1, 1, r0, p);
    var r := FailRequest(r0, MODE_RELAY, OVERLOADED, 11);
    assert {} + {p} - {p} == {};
    late := AgeGoesOn(c, late, 11, 13, {}, 1, 1, r);
    r := AgeRequest(r, 13);
    late := AttemptGoesOn(c, late, 13, {}, 1, 1, r);
    AtHasTried(c, late, 13, {} + {p}, 2, 1, PopProxy(r, 13));
  }

  lemma OpenOnStage(net: Net, own: NodeId, t: NodeId, relays: set<NodeId>, p: NodeId)
    requires Stage(net, own, t, relays, {p})
    ensures |Open(net.nodes[own], t)| == 1
  {
    assert Waits(net.nodes[own], p, t);
    assert Open(net.nodes[own], t) == {Tuple(own, p, t)};
  }

  /**
   * An attempt that is open when a request is made is charged to the new request:
   * its refusal and that of the first attempt recycle two proxies after one
   * attempt, and the request makes 6 attempts with one proxy inserted.
   */
  lemma EarlierAttemptCounts(net: Net, own: NodeId, t: NodeId, p: NodeId, q: NodeId)
    requires Ground(net, own, t, {p, q}) && p != q
    ensures exists acts, end, first :: GivenUp(net, acts, end, first, own, t, 1, 1, 6)
  {
    hide At, Stage, Initial, GivenUp, Run;
    GroundIsStage(net, own, t, {p, q});
    var viaP, viaQ := ProxyId(BdId(p, NO_ADDR), QueryResult, 0), ProxyId(BdId(q, NO_ADDR), QueryResult, 0);
    var c := Cast(net, own, t, {p, q}, 1, 0);
    var acts, r := Begins(c, [], 0, {}, [viaP]);
    acts := AttemptGoesOn(c, acts, 11, {}, 0, 1, r);
    assert {} + {p} == {p};
    acts := CancelGoesOn(c, acts, 11, {p}, 1, 1, PopProxy(r, 11));
    OpenOnStage(Run(net, acts), own, t, {p, q}, p);
    SecondRequest(net, acts, own, t, p, q, viaQ);
  }

  lemma SecondRequest(net: Net, acts: seq<Action>, own: NodeId, t: NodeId, p: NodeId, q: NodeId, viaQ: ProxyId)
    requires Stage(Run(net, acts), own, t, {p, q}, {p}) && InTime(acts, 11) && own in net.nodes && p != q
    requires var n := Run(net, acts).nodes[own]; n.reqs == map[] && |Open(n, t)| == 1
    requires viaQ.id.id == q
    ensures exists all, end, first :: GivenUp(net, all, end, first, own, t, 1, 1, 6)
  {
    hide At, Stage, GivenUp, Run;
    var c := Cast(net, own, t, {p, q}, |acts| + 1, 1);
    var all, r := Begins(c, acts, 11, {p}, [viaQ]);
    all := AttemptGoesOn(c, all, 22, {p}, 0, 1, r);
    r := PopProxy(r, 22);
    all := RefusalGoesOn(c, all, 22, {p} + {q}, 1, 1, r, p);
    r := FailRequest(r, MODE_RELAY, OVERLOADED, 22);
    all := RefusalGoesOn(c, all, 22, {p} + {q} - {p}, 1, 1, r, q);
    r := FailRequest(r, MODE_RELAY, OVERLOADED, 22);
    OverloadedIsRecycled();
    assert {p} + {q} - {p} - {q} == {};
    assert r.recycled == 2 && |r.goodProxies| == 2;
    all := AgeGoesOn(c, all, 22, 24, {}, 1, 1, r);
    r := AgeRequest(r, 24);
    var end;
    all, end, r := Rounds(c, all, 24, 1, 1, r);
    AtGivesUp(c, all, end, 6, 1, r);
  }
}
