/**
 * A handshake through a proxy can succeed: for all ids, addresses, delays and
 * clock readings there is a run of the network in which both ends complete the
 * same connection, with the addresses that the parties gave or were seen at.
 */
module CompleteHandshake {
  import opened Collections
  import opened Ids
  import opened ConnectTypes
  import opened ConnectSpec
  import opened Handshake
  import opened HandshakeRuns
  import opened HandshakeSteps

  /** The nodes of the three parties. */
  datatype Trio = Trio(s: Node, p: Node, d: Node) {
    ghost predicate In(net: Net, x: Plan) {
      && x.s in net.nodes && x.p.id in net.nodes && x.d in net.nodes
      && net.nodes[x.s] == s && net.nodes[x.p.id] == p && net.nodes[x.d] == d
      && s.own == x.s && p.own == x.p.id && d.own == x.d
    }
  }

  /** The clock readings of the eleven steps, the answers of the upper layers, and what the source has left. */
  datatype Course = Course(t: seq<int>, bandwidth: int, delay: int, left: int) {
    predicate Valid() {
      |t| == 12 && t[7] - t[6] <= 20 && t[7] > 3
    }
  }

  lemma Happens(net: Net, x: Plan, o: Trio, a: Action, m: Node)
    requires x.Valid() && o.In(net, x) && Where(a) in {x.s, x.p.id, x.d} && CanAct(net.nodes[Where(a)], a)
    requires a.Deliver? ==> a.pkt in o.s.sent || a.pkt in o.p.sent || a.pkt in o.d.sent
    requires m == Act(net.nodes[Where(a)], a)
    ensures var after := if Where(a) == x.s then o.(s := m) else if Where(a) == x.d then o.(d := m) else o.(p := m);
            after.In(Apply(net, a), x)
  {
    hide Act, CanAct;
    assert Enabled(net, a);
  }

  /** The packet comes to the proxy, to the source, or to the destination. */
  lemma ComesTo(net: Net, x: Plan, o: Trio, a: Action, m: Node)
    requires x.Valid() && o.In(net, x) && a.Deliver? && (a.found.Some? ==> a.found.value.id == a.pkt.msg.dest.id)
    requires a.pkt in o.s.sent || a.pkt in o.p.sent || a.pkt in o.d.sent
    requires a.pkt.to.id in {x.s, x.p.id, x.d}
    requires m == Receive(net.nodes[a.pkt.to.id], BdId(a.pkt.from, a.addr), a.pkt.msg, a.found, a.now)
    ensures a.pkt.to.id == x.p.id ==> o.(p := m).In(Apply(net, a), x)
    ensures a.pkt.to.id == x.s ==> o.(s := m).In(Apply(net, a), x)
    ensures a.pkt.to.id == x.d ==> o.(d := m).In(Apply(net, a), x)
  {
    hide Receive, Apply;
    Happens(net, x, o, a, m);
  }

  function AskStep(x: Plan, h: Course): Action
    requires h.Valid()
  {
    TickReqs(x.s, [x.d], h.t[1])
  }

  function Arrives(pkt: Packet, addr: Addr, found: Option<BdId>, now: int): Action {
    Deliver(pkt, addr, found, now)
  }

  /** The run. */
  function Script(x: Plan, h: Course, quiet: bool): seq<Action>
    requires h.Valid()
  {
    var told := Told(Agreed(x, h, quiet), h.t[7]);
    [AskStep(x, h),
     Arrives(Packet(x.s, x.p, Asking(x, h.left)), x.seen, Some(BdId(x.d, x.known)), h.t[2]),
     Authorise(x.p.id, BdId(x.s, NO_ADDR), x.p, BdId(x.d, NO_ADDR), h.bandwidth, 0, h.t[3]),
     Arrives(Passing(x), x.away, None, h.t[4]),
     Authorise(x.d, BdId(x.s, NO_ADDR), x.p, BdId(x.d, x.given), 0, h.delay, h.t[5]),
     Arrives(Answer(x, Needed(h)), x.known, None, h.t[6]),
     TickTable(x.p.id, [x.Key()], h.t[7]),
     Arrives(Packet(x.p.id, BdId(x.s, x.seen), Starting(x, told)), x.p.addr, None, h.t[8]),
     Arrives(Packet(x.p.id, BdId(x.d, x.known), Starting(x, told)), x.away, None, h.t[9]),
     Arrives(Thanks(x, x.s, x.p.addr), x.seen, None, h.t[10]),
     Arrives(Thanks(x, x.d, x.away), x.known, None, h.t[11])]
  }

  /** The delay that the destination asks for: what its upper layer says, from the moment the request came in. */
  function Needed(h: Course): int
    requires h.Valid()
  {
    h.delay + (h.t[5] - h.t[4])
  }

  /** The connection at the proxy when both sides are to start; a quiet proxy grants no bandwidth. */
  function Agreed(x: Plan, h: Course, quiet: bool): Connection
    requires h.Valid()
  {
    Prepared(x, h.left, h.t[2], if quiet then 0 else h.bandwidth, Needed(h), h.t[6])
  }

  predicate Quiet(x: Plan, p: Node) {
    x.mode == 2 && p.autoProxy
  }

  // -------------------------------------------------------------- the beginning

  /** Only this request is there at the source, due and with `left` of its delay; nothing stands in the way. */
  ghost predicate Begins(x: Plan, h: Course, o: Trio) {
    && x.Valid() && h.Valid()
    && Free(o.s, x.Key(), x.mode) && Free(o.p, x.Key(), x.mode) && Free(o.d, x.Key(), x.mode)
    && o.p.conns == map[] && o.s.reqs.Keys == {x.d}
    && var r := o.s.reqs[x.d];
       && r.state == ReqState.Ready && r.target == x.d && r.mode == x.mode && r.localAddr == x.local
       && r.goodProxies != [] && r.goodProxies[0].id == x.p
       && h.left == Max(r.delay - (h.t[1] - r.requestTS), 0)
  }

  lemma OneRequest(n: Node, t: NodeId, now: int)
    requires n.reqs.Keys == {t} && n.reqs[t].state == ReqState.Ready
    requires TickRequest(n, t, now).0.reqs[t].state == InProgress
    ensures TickRequests(n, [t], now) == TickRequest(n, t, now).0
  {
    hide TickRequest, StartRequest;
    var m := TickRequest(n, t, now).0;
    assert m.reqs - {} == m.reqs;
    assert [t][..0] == [];
    assert VisitRequests(n, [t][..0], now) == (n, {});
    NotErased(n, t, now);
  }

  lemma NotErased(n: Node, t: NodeId, now: int)
    requires t in n.reqs && n.reqs[t].state == ReqState.Ready
    ensures !TickRequest(n, t, now).1
  {
  }

  lemma OneEntry(n: Node, k: Tuple, now: int)
    requires n.conns.Keys == {k} && !TickConn(n, k, now).1
    ensures TickConns(n, [k], now) == TickConn(n, k, now).0
  {
    hide TickConn;
    var m := TickConn(n, k, now).0;
    assert m.conns - {} == m.conns;
    assert [k][..0] == [];
    assert VisitConns(n, [k][..0], now) == (n, {});
  }

  /** The source asks. */
  lemma Step1(net: Net, x: Plan, h: Course, o: Trio) returns (o1: Trio)
    requires o.In(net, x) && Begins(x, h, o)
    ensures o1.In(Apply(net, AskStep(x, h)), x) && o1.p == o.p && o1.d == o.d
    ensures o1.s.conns == o.s.conns[x.Key() := Asked(x, h.left, h.t[1])]
    ensures o1.s.reqs.Keys == {x.d} && Packet(x.s, x.p, Asking(x, h.left)) in o1.s.sent
  {
    hide TickRequest, TickRequests, Apply, Max, Asked;
    SourceAsks(x, o.s, h.t[1]);
    OneRequest(o.s, x.d, h.t[1]);
    var m := TickRequest(o.s, x.d, h.t[1]).0;
    o1 := o.(s := m);
    assert m.sent[|o.s.sent|] == Packet(x.s, x.p, Asking(x, h.left));
    Happens(net, x, o, AskStep(x, h), m);
  }

  // ------------------------------------------------------------ the proxy passes on

  /** The request has come to the proxy: filed, or passed on already. */
  lemma Step2(net: Net, x: Plan, h: Course, o: Trio) returns (o2: Trio)
    requires o.In(net, x) && x.Valid() && h.Valid() && o.p.conns == map[] && Free(o.p, x.Key(), x.mode)
    requires Packet(x.s, x.p, Asking(x, h.left)) in o.s.sent
    ensures var a := Arrives(Packet(x.s, x.p, Asking(x, h.left)), x.seen, Some(BdId(x.d, x.known)), h.t[2]);
            o2.In(Apply(net, a), x) && o2.s == o.s && o2.d == o.d
    ensures o2.p.autoProxy == o.p.autoProxy
    ensures if Quiet(x, o.p) then o2.p.conns == map[x.Key() := Waiting(x, h.left, h.t[2], h.t[2], 0)]
                                  && Passing(x) in o2.p.sent
            else o2.p.conns == map[x.Key() := Filed(x, h.left, h.t[2])]
  {
    hide Receive, Apply, Act, CanAct, Free;
    var a := Arrives(Packet(x.s, x.p, Asking(x, h.left)), x.seen, Some(BdId(x.d, x.known)), h.t[2]);
    ProxyFiles(x, o.p, h.left, h.t[2]);
    var m := Receive(o.p, BdId(x.s, x.seen), Asking(x, h.left), Some(BdId(x.d, x.known)), h.t[2]);
    o2 := o.(p := m);
    if Quiet(x, o.p) {
      assert m.sent[|o.p.sent|] == Passing(x);
    }
    ComesTo(net, x, o, a, m);
  }

  /** The upper layer of the proxy has agreed, unless it was not asked. */
  lemma Step3(net: Net, x: Plan, h: Course, o: Trio, quiet: bool) returns (o3: Trio)
    requires o.In(net, x) && x.Valid() && h.Valid()
    requires if quiet then o.p.conns == map[x.Key() := Waiting(x, h.left, h.t[2], h.t[2], 0)] && Passing(x) in o.p.sent
             else o.p.conns == map[x.Key() := Filed(x, h.left, h.t[2])]
    ensures var a := Authorise(x.p.id, BdId(x.s, NO_ADDR), x.p, BdId(x.d, NO_ADDR), h.bandwidth, 0, h.t[3]);
            o3.In(Apply(net, a), x) && o3.s == o.s && o3.d == o.d
    ensures o3.p.autoProxy == o.p.autoProxy && Passing(x) in o3.p.sent
    ensures o3.p.conns == map[x.Key() := if quiet then Waiting(x, h.left, h.t[2], h.t[2], 0)
                                         else Waiting(x, h.left, h.t[2], h.t[3], h.bandwidth)]
  {
    hide Apply;
    var a := Authorise(x.p.id, BdId(x.s, NO_ADDR), x.p, BdId(x.d, NO_ADDR), h.bandwidth, 0, h.t[3]);
    var m := AuthOk(o.p, BdId(x.s, NO_ADDR), x.p, BdId(x.d, NO_ADDR), x.mode, MidPoint, h.bandwidth, 0, h.t[3]);
    if !quiet {
      ProxyAgrees(x, o.p, h.left, h.t[2], h.bandwidth, h.t[3]);
      assert m.sent[|o.p.sent|] == Passing(x);
    }
    hide AuthOk;
    o3 := o.(p := m);
    Happens(net, x, o, a, m);
  }

  // ------------------------------------------------------- the destination answers

  lemma Step4(net: Net, x: Plan, h: Course, o: Trio) returns (o4: Trio)
    requires o.In(net, x) && x.Valid() && h.Valid() && Free(o.d, x.Key(), x.mode) && Passing(x) in o.p.sent
    ensures o4.In(Apply(net, Arrives(Passing(x), x.away, None, h.t[4])), x) && o4.s == o.s && o4.p == o.p
    ensures o4.d.conns == o.d.conns[x.Key() := Offered(x, h.t[4])]
  {
    hide Receive, Apply, Act, CanAct, Free, Offered;
    DestinationFiles(x, o.d, None, h.t[4]);
    var m := Receive(o.d, BdId(x.p.id, x.away), Passing(x).msg, None, h.t[4]);
    o4 := o.(d := m);
    ComesTo(net, x, o, Arrives(Passing(x), x.away, None, h.t[4]), m);
  }

  lemma Step5(net: Net, x: Plan, h: Course, o: Trio) returns (o5: Trio)
    requires o.In(net, x) && x.Valid() && h.Valid() && x.Key() in o.d.conns && o.d.conns[x.Key()] == Offered(x, h.t[4])
    ensures var a := Authorise(x.d, BdId(x.s, NO_ADDR), x.p, BdId(x.d, x.given), 0, h.delay, h.t[5]);
            o5.In(Apply(net, a), x) && o5.s == o.s && o5.p == o.p
    ensures x.Key() in o5.d.conns && o5.d.conns[x.Key()] == Accepted(x, h.t[4], h.delay, h.t[5])
    ensures Answer(x, Needed(h)) in o5.d.sent
  {
    hide AuthOk, Apply;
    var a := Authorise(x.d, BdId(x.s, NO_ADDR), x.p, BdId(x.d, x.given), 0, h.delay, h.t[5]);
    DestinationAgrees(x, o.d, h.t[4], 0, h.delay, h.t[5]);
    var m := AuthOk(o.d, BdId(x.s, NO_ADDR), x.p, BdId(x.d, x.given), x.mode, EndPoint, 0, h.delay, h.t[5]);
    o5 := o.(d := m);
    assert m.sent[|o.d.sent|] == Answer(x, Needed(h));
    Happens(net, x, o, a, m);
  }

  // ----------------------------------------------------- the proxy has both start

  lemma Step6(net: Net, x: Plan, h: Course, o: Trio, quiet: bool, agreed: int) returns (o6: Trio)
    requires o.In(net, x) && x.Valid() && h.Valid() && Answer(x, Needed(h)) in o.d.sent
    requires o.p.conns == map[x.Key() := Waiting(x, h.left, h.t[2], agreed, if quiet then 0 else h.bandwidth)]
    ensures o6.In(Apply(net, Arrives(Answer(x, Needed(h)), x.known, None, h.t[6])), x) && o6.s == o.s && o6.d == o.d
    ensures o6.p.conns == map[x.Key() := Agreed(x, h, quiet)]
  {
    hide Receive, Apply, Act, CanAct, Prepared, Waiting;
    var bandwidth := if quiet then 0 else h.bandwidth;
    ProxyPrepares(x, o.p, h.left, h.t[2], agreed, bandwidth, Needed(h), x.known, None, h.t[6]);
    var m := Receive(o.p, BdId(x.d, x.known), Answer(x, Needed(h)).msg, None, h.t[6]);
    o6 := o.(p := m);
    ComesTo(net, x, o, Arrives(Answer(x, Needed(h)), x.known, None, h.t[6]), m);
  }

  lemma Step7(net: Net, x: Plan, h: Course, o: Trio, quiet: bool) returns (o7: Trio)
    requires o.In(net, x) && x.Valid() && h.Valid() && o.p.conns == map[x.Key() := Agreed(x, h, quiet)]
    ensures o7.In(Apply(net, TickTable(x.p.id, [x.Key()], h.t[7])), x) && o7.s == o.s && o7.d == o.d
    ensures o7.p.conns == map[x.Key() := Agreed(x, h, quiet).(lastStart := h.t[7], retryCount := 1)]
    ensures var start := Starting(x, Told(Agreed(x, h, quiet), h.t[7]));
            && Packet(x.p.id, BdId(x.s, x.seen), start) in o7.p.sent
            && Packet(x.p.id, BdId(x.d, x.known), start) in o7.p.sent
  {
    hide TickConn, TickConns, Apply, Prepared, Told;
    var bandwidth := if quiet then 0 else h.bandwidth;
    ProxyStarts(x, o.p, h.left, h.t[2], bandwidth, Needed(h), h.t[6], h.t[7]);
    OneEntry(o.p, x.Key(), h.t[7]);
    var m := TickConn(o.p, x.Key(), h.t[7]).0;
    o7 := o.(p := m);
    var start := Starting(x, Told(Agreed(x, h, quiet), h.t[7]));
    assert m.sent[|o.p.sent|] == Packet(x.p.id, BdId(x.s, x.seen), start);
    assert m.sent[|o.p.sent| + 1] == Packet(x.p.id, BdId(x.d, x.known), start);
    Happens(net, x, o, TickTable(x.p.id, [x.Key()], h.t[7]), m);
  }

  // ------------------------------------------------------------------ both start

  /** The source has started. */
  lemma Step8(net: Net, x: Plan, h: Course, o: Trio, told: int) returns (o8: Trio)
    requires o.In(net, x) && x.Valid() && h.Valid() && x.d in o.s.reqs
    requires x.Key() in o.s.conns && o.s.conns[x.Key()] == Asked(x, h.left, h.t[1])
    requires Packet(x.p.id, BdId(x.s, x.seen), Starting(x, told)) in o.p.sent
    ensures var a := Arrives(Packet(x.p.id, BdId(x.s, x.seen), Starting(x, told)), x.p.addr, None, h.t[8]);
            o8.In(Apply(net, a), x) && o8.p == o.p && o8.d == o.d
    ensures SourceIsDone(x, h, o8.s, told) && Thanks(x, x.s, x.p.addr) in o8.s.sent
  {
    hide Receive, Apply, Act, CanAct, Asked, Started;
    var a := Arrives(Packet(x.p.id, BdId(x.s, x.seen), Starting(x, told)), x.p.addr, None, h.t[8]);
    SourceStarts(x, o.s, h.left, h.t[1], told, x.p.addr, None, h.t[8]);
    var m := Receive(o.s, BdId(x.p.id, x.p.addr), Starting(x, told), None, h.t[8]);
    o8 := o.(s := m);
    assert m.sent[|o.s.sent|] == Thanks(x, x.s, x.p.addr);
    ComesTo(net, x, o, a, m);
  }

  /** The source holds the completed connection, and its request knows. */
  ghost predicate SourceIsDone(x: Plan, h: Course, n: Node, told: int)
    requires h.Valid()
  {
    && x.Key() in n.conns && n.conns[x.Key()] == Started(x, Asked(x, h.left, h.t[1]), told, h.t[8])
    && x.d in n.reqs && n.reqs[x.d].state == ExtConnect
  }

  ghost predicate DestinationIsDone(x: Plan, h: Course, n: Node, told: int)
    requires h.Valid()
  {
    && x.Key() in n.conns
    && n.conns[x.Key()] == Started(x, Accepted(x, h.t[4], h.delay, h.t[5]), told, h.t[9])
  }

  lemma Step9(net: Net, x: Plan, h: Course, o: Trio, told: int) returns (o9: Trio)
    requires o.In(net, x) && x.Valid() && h.Valid()
    requires x.Key() in o.d.conns && o.d.conns[x.Key()] == Accepted(x, h.t[4], h.delay, h.t[5])
    requires Packet(x.p.id, BdId(x.d, x.known), Starting(x, told)) in o.p.sent
    ensures var a := Arrives(Packet(x.p.id, BdId(x.d, x.known), Starting(x, told)), x.away, None, h.t[9]);
            o9.In(Apply(net, a), x) && o9.p == o.p && o9.s == o.s
    ensures DestinationIsDone(x, h, o9.d, told) && Thanks(x, x.d, x.away) in o9.d.sent
  {
    hide Receive, Apply, Act, CanAct, Accepted, Started;
    var a := Arrives(Packet(x.p.id, BdId(x.d, x.known), Starting(x, told)), x.away, None, h.t[9]);
    DestinationStarts(x, o.d, h.t[4], h.delay, h.t[5], told, x.away, None, h.t[9]);
    var m := Receive(o.d, BdId(x.p.id, x.away), Starting(x, told), None, h.t[9]);
    o9 := o.(d := m);
    assert m.sent[|o.d.sent|] == Thanks(x, x.d, x.away);
    ComesTo(net, x, o, a, m);
  }

  // --------------------------------------------------------- the proxy has finished

  predicate Awaits(x: Plan, c: Connection) {
    c.state == WaitingAck && c.point == MidPoint && c.mode == x.mode && !c.srcAck && !c.destAck
  }

  lemma Step10(net: Net, x: Plan, h: Course, o: Trio, c: Connection) returns (o10: Trio)
    requires o.In(net, x) && x.Valid() && h.Valid() && o.p.conns == map[x.Key() := c] && Awaits(x, c)
    requires Thanks(x, x.s, x.p.addr) in o.s.sent
    ensures o10.In(Apply(net, Arrives(Thanks(x, x.s, x.p.addr), x.seen, None, h.t[10])), x)
    ensures o10.s == o.s && o10.d == o.d && o10.p.conns == map[x.Key() := c.(srcAck := true)]
  {
    hide Receive, Apply, Act, CanAct;
    ProxyHears(x, o.p, x.s, x.p.addr, x.seen, None, h.t[10]);
    var m := Receive(o.p, BdId(x.s, x.seen), Thanks(x, x.s, x.p.addr).msg, None, h.t[10]);
    o10 := o.(p := m);
    ComesTo(net, x, o, Arrives(Thanks(x, x.s, x.p.addr), x.seen, None, h.t[10]), m);
  }

  lemma Step11(net: Net, x: Plan, h: Course, o: Trio, c: Connection) returns (o11: Trio)
    requires o.In(net, x) && x.Valid() && h.Valid() && o.p.conns == map[x.Key() := c.(srcAck := true)] && Awaits(x, c)
    requires Thanks(x, x.d, x.away) in o.d.sent
    ensures o11.In(Apply(net, Arrives(Thanks(x, x.d, x.away), x.known, None, h.t[11])), x)
    ensures o11.s == o.s && o11.d == o.d && o11.p.conns == map[]
  {
    hide Receive, Apply, Act, CanAct;
    ProxyHears(x, o.p, x.d, x.away, x.known, None, h.t[11]);
    var m := Receive(o.p, BdId(x.d, x.known), Thanks(x, x.d, x.away).msg, None, h.t[11]);
    o11 := o.(p := m);
    assert map[x.Key() := c.(srcAck := true)] - {x.Key()} == map[];
    ComesTo(net, x, o, Arrives(Thanks(x, x.d, x.away), x.known, None, h.t[11]), m);
  }

  // --------------------------------------------------------------------- the run

  lemma RunNone(net: Net, acts: seq<Action>)
    ensures Run(net, acts[..0]) == net
  {
  }

  lemma RunNext(net: Net, acts: seq<Action>, i: nat)
    requires i < |acts|
    ensures Run(net, acts[..i + 1]) == Apply(Run(net, acts[..i]), acts[i])
  {
    assert acts[..i + 1][..i] == acts[..i];
  }

  /** The first three steps: the request is with the destination's messages. */
  lemma FirstPart(net: Net, x: Plan, h: Course, o: Trio, acts: seq<Action>) returns (o3: Trio, agreed: int)
    requires o.In(net, x) && Begins(x, h, o) && acts == Script(x, h, Quiet(x, o.p))
    ensures o3.In(Run(net, acts[..3]), x) && o3.d == o.d && o3.p.autoProxy == o.p.autoProxy
    ensures x.d in o3.s.reqs && x.Key() in o3.s.conns && o3.s.conns[x.Key()] == Asked(x, h.left, h.t[1])
    ensures o3.p.conns
            == map[x.Key() := Waiting(x, h.left, h.t[2], agreed, if Quiet(x, o.p) then 0 else h.bandwidth)]
    ensures Passing(x) in o3.p.sent
  {
    hide Apply, Asked, Waiting, Filed, Passing, Free, Run, Answer, Starting, Thanks, Told, Agreed, Needed, Max, Asking;
    var o1 := Step1(net, x, h, o);
    RunNone(net, acts);
    RunNext(net, acts, 0);
    var o2 := Step2(Run(net, acts[..1]), x, h, o1);
    RunNext(net, acts, 1);
    o3 := Step3(Run(net, acts[..2]), x, h, o2, Quiet(x, o.p));
    RunNext(net, acts, 2);
    agreed := if Quiet(x, o.p) then h.t[2] else h.t[3];
  }

  /** The next four: the destination has answered, and both ends are told to start. */
  lemma SecondPart(net: Net, x: Plan, h: Course, o3: Trio, quiet: bool, agreed: int, acts: seq<Action>)
    returns (o7: Trio)
    requires x.Valid() && h.Valid() && acts == Script(x, h, quiet) && o3.In(Run(net, acts[..3]), x)
    requires Free(o3.d, x.Key(), x.mode) && Passing(x) in o3.p.sent
    requires o3.p.conns == map[x.Key() := Waiting(x, h.left, h.t[2], agreed, if quiet then 0 else h.bandwidth)]
    ensures o7.In(Run(net, acts[..7]), x) && o7.s == o3.s
    ensures x.Key() in o7.d.conns && o7.d.conns[x.Key()] == Accepted(x, h.t[4], h.delay, h.t[5])
    ensures o7.p.conns == map[x.Key() := Agreed(x, h, quiet).(lastStart := h.t[7], retryCount := 1)]
    ensures var start := Starting(x, Told(Agreed(x, h, quiet), h.t[7]));
            && Packet(x.p.id, BdId(x.s, x.seen), start) in o7.p.sent
            && Packet(x.p.id, BdId(x.d, x.known), start) in o7.p.sent
  {
    hide Apply, Waiting, Passing, Offered, Accepted, Agreed, Told, Starting, Free, Answer, Needed, Run, Thanks, Asking;
    var o4 := Step4(Run(net, acts[..3]), x, h, o3);
    RunNext(net, acts, 3);
    var o5 := Step5(Run(net, acts[..4]), x, h, o4);
    RunNext(net, acts, 4);
    var o6 := Step6(Run(net, acts[..5]), x, h, o5, quiet, agreed);
    RunNext(net, acts, 5);
    o7 := Step7(Run(net, acts[..6]), x, h, o6, quiet);
    RunNext(net, acts, 6);
  }

  /** The last four: both ends have started, and the proxy has been thanked by both. */
  lemma ThirdPart(net: Net, x: Plan, h: Course, o7: Trio, quiet: bool, acts: seq<Action>) returns (o: Trio)
    requires x.Valid() && h.Valid() && acts == Script(x, h, quiet) && o7.In(Run(net, acts[..7]), x)
    requires x.d in o7.s.reqs && x.Key() in o7.s.conns && o7.s.conns[x.Key()] == Asked(x, h.left, h.t[1])
    requires x.Key() in o7.d.conns && o7.d.conns[x.Key()] == Accepted(x, h.t[4], h.delay, h.t[5])
    requires o7.p.conns == map[x.Key() := Agreed(x, h, quiet).(lastStart := h.t[7], retryCount := 1)]
    requires var start := Starting(x, Told(Agreed(x, h, quiet), h.t[7]));
             && Packet(x.p.id, BdId(x.s, x.seen), start) in o7.p.sent
             && Packet(x.p.id, BdId(x.d, x.known), start) in o7.p.sent
    ensures o.In(Run(net, acts[..11]), x) && o.p.conns == map[]
    ensures var told := Told(Agreed(x, h, quiet), h.t[7]);
            SourceIsDone(x, h, o.s, told) && DestinationIsDone(x, h, o.d, told)
  {
    hide Apply, Asked, Accepted, Starting, SourceIsDone, DestinationIsDone, Thanks, Run, Told, Awaits;
    var c, told := Agreed(x, h, quiet).(lastStart := h.t[7], retryCount := 1), Told(Agreed(x, h, quiet), h.t[7]);
    AgreedAwaits(x, h, quiet, h.t[7]);
    hide Agreed;
    var o8 := Step8(Run(net, acts[..7]), x, h, o7, told);
    RunNext(net, acts, 7);
    var o9 := Step9(Run(net, acts[..8]), x, h, o8, told);
    RunNext(net, acts, 8);
    var o10 := Step10(Run(net, acts[..9]), x, h, o9, c);
    RunNext(net, acts, 9);
    o := Step11(Run(net, acts[..10]), x, h, o10, c);
    RunNext(net, acts, 10);
  }

  lemma AgreedAwaits(x: Plan, h: Course, quiet: bool, now: int)
    requires h.Valid()
    ensures Awaits(x, Agreed(x, h, quiet).(lastStart := now, retryCount := 1))
  {
  }

  /**
   * The handshake can succeed, in a network that may hold anything else: after
   * this run both ends have completed the connection, with the same addresses
   * to use and what the proxy told them, the request of the source knows, and
   * the proxy holds nothing more.
   */
  lemma HandshakeCompletes(net: Net, x: Plan, h: Course, o: Trio) returns (end: Trio)
    requires o.In(net, x) && Begins(x, h, o)
    ensures end.In(Run(net, Script(x, h, Quiet(x, o.p))), x) && end.p.conns == map[]
    ensures var told := Told(Agreed(x, h, Quiet(x, o.p)), h.t[7]);
            SourceIsDone(x, h, end.s, told) && DestinationIsDone(x, h, end.d, told)
  {
    hide Apply, Run, Asked, Accepted, Starting, SourceIsDone, DestinationIsDone, Told, Agreed, Waiting, Passing, Free;
    var quiet := Quiet(x, o.p);
    var acts := Script(x, h, quiet);
    assert acts[..11] == acts;
    hide Script, Quiet;
    var o3, agreed := FirstPart(net, x, h, o, acts);
    var o7 := SecondPart(net, x, h, o3, quiet, agreed, acts);
    end := ThirdPart(net, x, h, o7, quiet, acts);
  }
}
