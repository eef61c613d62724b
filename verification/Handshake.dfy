/**
 * The three-party handshake as a network of nodes.  Every packet a node ever
 * sent may reach its addressee at any time, any number of times, in any order,
 * or never.
 */
module Handshake {
  import opened Collections
  import opened Ids
  import opened ConnectTypes
  import opened ConnectSpec

  /**
   * What has happened so far: `auth` holds the keys of the connections a
   * destination authorised, `done` says which node had which entry completed.
   */
  datatype Facts = Facts(auth: set<Tuple>, done: set<(NodeId, Tuple)>)

  predicate Extends(f: Facts, g: Facts) {
    f.auth <= g.auth && f.done <= g.done
  }

  /** The key under which the destination knows the connection `k`: a direct
      connection is filed under its peer on either side. */
  function Consent(k: Tuple): Tuple {
    if k.proxy == k.dest then Tuple(k.src, k.src, k.dest) else k
  }

  // -------------------------------------------------------------- invariants

  /** The (point, state) pairs a correct node can reach, and what they imply. */
  predicate ConnOk(f: Facts, own: NodeId, k: Tuple, c: Connection) {
    match f case Facts(auth, done) =>
    && c.HasIds(k) && c.srcConnAddr.id == k.src && c.destConnAddr.id == k.dest
    && k.src != k.dest
    && match c.point
       case StartPoint =>
         && k.src == own && k.proxy != own
         && (c.mode == MODE_DIRECT <==> k.proxy == k.dest)
         && (c.state == WaitingStart || (c.state == Completed && Consent(k) in auth && (own, k) in done))
       case MidPoint =>
         && k.proxy == own && k.src != own && k.dest != own && c.mode != MODE_DIRECT
         && (c.state == WaitingAuth || c.state == WaitingReply || (c.state == WaitingAck && k in auth))
         && (c.srcAck ==> (k.src, k) in done) && (c.destAck ==> (k.dest, k) in done)
       case EndPoint =>
         && k.dest == own
         && if c.mode == MODE_DIRECT then
              && k.proxy == k.src
              && (c.state == WaitingAuth || (c.state == WaitingAck && k in auth))
              && (c.srcAck ==> (k.src, Tuple(k.src, own, own)) in done)
            else
              && k.proxy != k.src && k.proxy != own
              && (c.state == WaitingAuth || (c.state == WaitingStart && k in auth)
                  || (c.state == Completed && k in auth && (own, k) in done))
       case UnknownPoint => false
  }

  predicate PacketOk(f: Facts, p: Packet) {
    match f case Facts(auth, done) =>
    var s, d, t := p.msg.src.id, p.msg.dest.id, p.to.id;
    && s != d
    && match p.msg.kind
       case MsgRequest =>
         if p.msg.mode == MODE_DIRECT then p.from == s && t == d
         else (p.from == s && t != s && t != d) || (p.from != s && p.from != d && t == d)
       case MsgReply =>
         p.msg.status == ANSWER_OKAY ==> p.from == d && t != s && t != d && Tuple(s, t, d) in auth
       case MsgStart => p.from != s && Consent(Tuple(s, p.from, d)) in auth
       case MsgAck => (p.from == s || p.from == d) && (p.from, Tuple(s, t, d)) in done
  }

  ghost predicate SentOk(f: Facts, n: Node) {
    forall p :: p in n.sent ==> p.from == n.own && PacketOk(f, p)
  }

  ghost predicate TableOk(f: Facts, n: Node) {
    forall k :: k in n.conns ==> ConnOk(f, n.own, k, n.conns[k])
  }

  ghost predicate RequestsOk(n: Node) {
    forall t :: t in n.reqs ==> t != n.own && n.reqs[t].target == t
  }

  ghost predicate NodeOk(f: Facts, n: Node) {
    match f case Facts(_, _) => SentOk(f, n) && TableOk(f, n) && RequestsOk(n)
  }

  lemma NodeOkMonotone(f: Facts, g: Facts, n: Node)
    requires NodeOk(f, n) && Extends(f, g)
    ensures NodeOk(g, n)
  {
    forall p | p in n.sent
      ensures p.from == n.own && PacketOk(g, p)
    {
      assert PacketOk(f, p);
    }
    forall k | k in n.conns
      ensures ConnOk(g, n.own, k, n.conns[k])
    {
      assert ConnOk(f, n.own, k, n.conns[k]);
    }
  }

  // ------------------------------------------------------------ the handlers

  /** Adds the entries that are completed at `n`. */
  function Observe(f: Facts, n: Node): (g: Facts)
    ensures Extends(f, g)
    ensures forall k :: k in n.conns && n.conns[k].state == Completed ==> (n.own, k) in g.done
  {
    f.(done := f.done + set k | k in n.conns && n.conns[k].state == Completed :: (n.own, k))
  }

  lemma PutOk(f: Facts, n: Node, k: Tuple, c: Connection)
    requires NodeOk(f, n) && ConnOk(f, n.own, k, c)
    ensures NodeOk(f, n.(conns := n.conns[k := c]))
  {
  }

  lemma SendOk(f: Facts, n: Node, to: BdId, kind: MsgKind, src: BdId, dest: BdId, mode: bv32, param: int, status: bv32)
    requires NodeOk(f, n)
    requires PacketOk(f, Packet(n.own, to, ConnectMsg(kind, src, dest, mode, param, status)))
    ensures NodeOk(f, n.Send(to, kind, src, dest, mode, param, status))
  {
  }

  lemma EntryOk(f: Facts, n: Node, k: Tuple)
    requires NodeOk(f, n) && k in n.conns
    ensures ConnOk(f, n.own, k, n.conns[k])
  {
  }

  lemma DropOk(f: Facts, n: Node, k: Tuple)
    requires NodeOk(f, n)
    ensures NodeOk(f, n.(conns := n.conns - {k}))
  {
  }

  /** Neither requests that keep their targets nor upcalls matter to the invariant. */
  lemma SameTableOk(f: Facts, n: Node, m: Node)
    requires NodeOk(f, n) && m.own == n.own && m.conns == n.conns && m.sent == n.sent
    requires RequestsOk(n) ==> RequestsOk(m)
    ensures NodeOk(f, m)
  {
  }

  lemma TellKeepsTarget(r: Request, cb: Callback, now: int)
    ensures TellRequest(r, cb, now).target == r.target
  {
  }

  lemma CallbackKeepsTable(n: Node, cb: Callback, now: int)
    ensures var m := CallbackRequest(n, cb, now);
            m.own == n.own && m.conns == n.conns && m.sent == n.sent
    ensures RequestsOk(n) ==> RequestsOk(CallbackRequest(n, cb, now))
  {
    hide TellRequest, RequestsOk;
    var m := CallbackRequest(n, cb, now);
    if m.reqs == n.reqs {
      SameRequestsOk(n, m);
    } else {
      TellKeepsTarget(n.reqs[Peer(cb)], cb, now);
      ChangedRequestOk(n, m, Peer(cb));
    }
  }

  lemma SameRequestsOk(n: Node, m: Node)
    requires m.own == n.own && m.reqs == n.reqs
    ensures RequestsOk(m) == RequestsOk(n)
  {
  }

  lemma ChangedRequestOk(n: Node, m: Node, t: NodeId)
    requires m.own == n.own && t in n.reqs && t in m.reqs && m.reqs == n.reqs[t := m.reqs[t]]
    requires m.reqs[t].target == n.reqs[t].target
    ensures RequestsOk(n) ==> RequestsOk(m)
  {
  }

  lemma StartAttemptOk(f: Facts, n: Node, proxy: BdId, src: BdId, dest: BdId, mode: bv32, delay: int, now: int)
    requires NodeOk(f, n)
    requires src.id == n.own && dest.id != n.own && proxy.id != n.own
    requires mode == MODE_DIRECT <==> proxy.id == dest.id
    ensures NodeOk(f, StartAttempt(n, proxy, src, dest, mode, delay, now).0)
  {
  }

  /** The destination consents when it lets a waiting end connection go on. */
  predicate GivesConsent(n: Node, k: Tuple) {
    k in n.conns && n.conns[k].state == WaitingAuth && n.conns[k].point == EndPoint
  }

  function WithConsent(f: Facts, n: Node, k: Tuple): (g: Facts)
    ensures Extends(f, g)
  {
    if GivesConsent(n, k) then f.(auth := f.auth + {k}) else f
  }

  lemma AuthDirectOk(f: Facts, own: NodeId, k: Tuple, c: Connection, dest: BdId, now: int)
    requires ConnOk(f, own, k, c) && c.state == WaitingAuth && c.mode == MODE_DIRECT && dest.id == k.dest
    requires c.point == EndPoint ==> k in f.auth
    ensures ConnOk(f, own, k, AuthoriseDirectConnection(c, dest, now))
  {
  }

  lemma AuthEndOk(f: Facts, own: NodeId, k: Tuple, c: Connection, dest: BdId, delay: int, now: int)
    requires ConnOk(f, own, k, c) && c.state == WaitingAuth && c.mode != MODE_DIRECT && c.point == EndPoint
    requires dest.id == k.dest && k in f.auth
    ensures var d := AuthoriseEndConnection(c, dest, delay, now);
            && ConnOk(f, own, k, d)
            && PacketOk(f, Packet(own, d.proxyId, ConnectMsg(MsgReply, d.srcConnAddr, d.destConnAddr, d.mode,
                                                             d.maxDelay, ANSWER_OKAY)))
  {
  }

  lemma AuthProxyOk(f: Facts, own: NodeId, k: Tuple, c: Connection, bandwidth: int, now: int)
    requires ConnOk(f, own, k, c) && c.state == WaitingAuth && c.mode != MODE_DIRECT && c.point != EndPoint
    ensures var d := AuthoriseProxyConnection(c, bandwidth, now);
            && ConnOk(f, own, k, d)
            && PacketOk(f, Packet(own, d.destId, ConnectMsg(MsgRequest, d.srcConnAddr, d.destConnAddr, d.mode, 0,
                                                            ANSWER_OKAY)))
  {
  }

  lemma AuthOkOk(f: Facts, n: Node, src: BdId, proxy: BdId, dest: BdId, mode: bv32, loc: Point,
                 bandwidth: int, delay: int, now: int)
    requires NodeOk(f, n)
    requires var k := Tuple(src.id, proxy.id, dest.id);
             k in n.conns ==> mode == n.conns[k].mode && loc == n.conns[k].point
    ensures NodeOk(WithConsent(f, n, Tuple(src.id, proxy.id, dest.id)),
                   AuthOk(n, src, proxy, dest, mode, loc, bandwidth, delay, now))
  {
    hide NodeOk, ConnOk, PacketOk, AuthoriseDirectConnection, AuthoriseEndConnection, AuthoriseProxyConnection;
    var k := Tuple(src.id, proxy.id, dest.id);
    var g := WithConsent(f, n, k);
    NodeOkMonotone(f, g, n);
    if k in n.conns && n.conns[k].state == WaitingAuth {
      var c := n.conns[k];
      EntryOk(g, n, k);
      if mode == MODE_DIRECT {
        AuthDirectOk(g, n.own, k, c, dest, now);
        PutOk(g, n, k, AuthoriseDirectConnection(c, dest, now));
      } else if loc == EndPoint {
        AuthEndOk(g, n.own, k, c, dest, delay, now);
        var d := AuthoriseEndConnection(c, dest, delay, now);
        PutOk(g, n, k, d);
        SendOk(g, n.(conns := n.conns[k := d]), d.proxyId, MsgReply, d.srcConnAddr, d.destConnAddr, d.mode, d.maxDelay,
               ANSWER_OKAY);
      } else {
        AuthProxyOk(g, n.own, k, c, bandwidth, now);
        var d := AuthoriseProxyConnection(c, bandwidth, now);
        PutOk(g, n, k, d);
        SendOk(g, n.(conns := n.conns[k := d]), d.destId, MsgRequest, d.srcConnAddr, d.destConnAddr, d.mode, 0,
               ANSWER_OKAY);
      }
    }
  }

  lemma AuthNoOk(f: Facts, n: Node, src: BdId, proxy: BdId, dest: BdId, mode: bv32, loc: Point, err: bv32)
    requires NodeOk(f, n)
    ensures NodeOk(f, AuthNo(n, src, proxy, dest, mode, loc, err))
  {
  }

  lemma InstallProxyOk(f: Facts, n: Node, k: Tuple, c: Connection, now: int)
    requires NodeOk(f, n) && ConnOk(f, n.own, k, c) && c.point == MidPoint
    requires k == Tuple(c.srcId.id, c.proxyId.id, c.destId.id)
    ensures var n1 := n.(conns := n.conns[k := c]);
            && NodeOk(f, AuthOk(n1, c.srcId, c.proxyId, c.destId, c.mode, c.point, 0, 0, now))
            && NodeOk(f, n1.CallFor(c, CbAuth, 0))
  {
    hide NodeOk, ConnOk, AuthOk;
    var n1 := n.(conns := n.conns[k := c]);
    PutOk(f, n, k, c);
    AuthOkOk(f, n1, c.srcId, c.proxyId, c.destId, c.mode, c.point, 0, 0, now);
    SameTableOk(f, n1, n1.CallFor(c, CbAuth, 0));
  }

  lemma InstallEndOk(f: Facts, n: Node, k: Tuple, c: Connection)
    requires NodeOk(f, n) && ConnOk(f, n.own, k, c)
    ensures NodeOk(f, n.(conns := n.conns[k := c]).CallFor(c, CbAuth, 0))
  {
    hide NodeOk, ConnOk;
    PutOk(f, n, k, c);
    SameTableOk(f, n.(conns := n.conns[k := c]), n.(conns := n.conns[k := c]).CallFor(c, CbAuth, 0));
  }

  lemma InstallRequestedOk(f: Facts, n: Node, k: Tuple, id: BdId, src: BdId, dest: BdId, mode: bv32, delay: int,
                           found: Option<BdId>, now: int)
    requires NodeOk(f, n) && k == KeyBySender(n.own, id, src, dest)
    requires src.id != dest.id && (found.Some? ==> found.value.id == dest.id)
    requires if mode == MODE_DIRECT then id.id == src.id && n.own == dest.id
             else (id.id == src.id && n.own != src.id && n.own != dest.id)
                  || (id.id != src.id && id.id != dest.id && n.own == dest.id)
    ensures NodeOk(f, InstallRequested(n, k, id, src, dest, mode, delay, found, now))
  {
    hide NodeOk, AuthOk;
    if mode == MODE_DIRECT {
      InstallEndOk(f, n, k, ConnectionRequestDirect(id, src, dest, now));
    } else if src.id != id.id {
      InstallEndOk(f, n, k, ConnectionRequestEnd(id, src, dest, mode, now));
    } else if found.Some? {
      InstallProxyOk(f, n, k, ConnectionRequestProxy(id, src, n.own, found.value, mode, delay, now), now);
    } else {
      var status := CreateErrorCode(0, ERROR_NOADDRESS, MidPoint);
      SendOk(f, n, id, MsgReply, src, dest, mode, 0, status);
      var n1 := n.Send(id, MsgReply, src, dest, mode, 0, status);
      var cb := Callback(src, BdId(n.own, NO_ADDR), dest, mode, MidPoint, 0, CbAuth, ERROR_NOADDRESS);
      SameTableOk(f, n1, n1.Call(cb));
    }
  }

  lemma RecvRequestOk(f: Facts, n: Node, id: BdId, src: BdId, dest: BdId, mode: bv32, delay: int,
                      found: Option<BdId>, now: int)
    requires NodeOk(f, n)
    requires src.id != dest.id && (found.Some? ==> found.value.id == dest.id)
    requires if mode == MODE_DIRECT then id.id == src.id && n.own == dest.id
             else (id.id == src.id && n.own != src.id && n.own != dest.id)
                  || (id.id != src.id && id.id != dest.id && n.own == dest.id)
    ensures NodeOk(f, RecvRequest(n, id, src, dest, mode, delay, found, now).0)
  {
    var k := KeyBySender(n.own, id, src, dest);
    var point := if k in n.conns then n.conns[k].point else Position(n.own, src.id, dest.id);
    SendOk(f, n, id, MsgReply, src, dest, mode, 0, CreateErrorCode(0, ERROR_UNSUPPORTED, Position(n.own, src.id,
           dest.id)));
    SendOk(f, n, id, MsgReply, src, dest, mode, 0, CreateErrorCode(0, ERROR_DUPLICATE, point));
    InstallRequestedOk(f, n, k, id, src, dest, mode, delay, found, now);
  }

  lemma UpgradeOk(f: Facts, own: NodeId, k: Tuple, c: Connection, dest: BdId, delay: int, now: int)
    requires ConnOk(f, own, k, c) && c.point == MidPoint && k in f.auth && dest.id == k.dest
    ensures ConnOk(f, own, k, UpgradeToFinish(c, dest, delay, now))
  {
  }

  lemma PassOnOk(f: Facts, own: NodeId, k: Tuple, c: Connection, mode: bv32, err: bv32)
    requires ConnOk(f, own, k, c) && err != ANSWER_OKAY
    ensures PacketOk(f, Packet(own, c.srcId, ConnectMsg(MsgReply, c.srcConnAddr, c.destConnAddr, mode, 0, err)))
  {
  }

  lemma UpgradedOk(f: Facts, n: Node, k: Tuple, dest: BdId, delay: int, now: int)
    requires NodeOk(f, n) && k in n.conns && n.conns[k].point == MidPoint && dest.id == k.dest && k in f.auth
    ensures var u := UpgradeToFinish(n.conns[k], dest, delay, now);
            var n1 := n.(conns := n.conns[k := u]);
            NodeOk(f, n1) && NodeOk(f, n1.CallFor(u, CbPending, 0))
  {
    hide NodeOk, ConnOk, UpgradeToFinish;
    var u := UpgradeToFinish(n.conns[k], dest, delay, now);
    EntryOk(f, n, k);
    UpgradeOk(f, n.own, k, n.conns[k], dest, delay, now);
    PutOk(f, n, k, u);
    SameTableOk(f, n.(conns := n.conns[k := u]), n.(conns := n.conns[k := u]).CallFor(u, CbPending, 0));
  }

  lemma PassedOnOk(f: Facts, n: Node, k: Tuple, mode: bv32, err: bv32)
    requires NodeOk(f, n) && k in n.conns && err != ANSWER_OKAY
    ensures var c := n.conns[k];
            NodeOk(f, n.Send(c.srcId, MsgReply, c.srcConnAddr, c.destConnAddr, mode, 0, err).(conns := n.conns - {k}))
  {
    hide NodeOk, ConnOk, PacketOk;
    var c := n.conns[k];
    EntryOk(f, n, k);
    PassOnOk(f, n.own, k, c, mode, err);
    SendOk(f, n, c.srcId, MsgReply, c.srcConnAddr, c.destConnAddr, mode, 0, err);
    DropOk(f, n.Send(c.srcId, MsgReply, c.srcConnAddr, c.destConnAddr, mode, 0, err), k);
  }

  lemma ReplyAtProxyOk(f: Facts, n: Node, k: Tuple, dest: BdId, mode: bv32, delay: int, status: bv32, now: int)
    requires NodeOk(f, n) && k in n.conns && n.conns[k].point == MidPoint && dest.id == k.dest
    requires status == ANSWER_OKAY ==> k in f.auth
    ensures NodeOk(f, ReplyAtProxy(n, k, n.conns[k], dest, mode, delay, status, now).0)
  {
    hide NodeOk, UpgradeToFinish, CreateErrorCode;
    var c := n.conns[k];
    if status == ANSWER_OKAY && c.state == WaitingReply {
      UpgradedOk(f, n, k, dest, delay, now);
    } else {
      var err := if status == ANSWER_OKAY then CreateErrorCode(0, ERROR_PROTOCOL, c.point) else status;
      var n1 := if n.Quiet(c.mode) then n else n.CallFor(c, CbFailed, err);
      SameTableOk(f, n, n1);
      PassedOnOk(f, n1, k, mode, err);
    }
  }

  lemma RecvReplyOk(f: Facts, n: Node, id: BdId, src: BdId, dest: BdId, mode: bv32, delay: int, status: bv32,
                    now: int)
    requires NodeOk(f, n)
    requires status == ANSWER_OKAY ==> n.own != src.id && n.own != dest.id && Tuple(src.id, n.own, dest.id) in f.auth
    ensures NodeOk(f, RecvReply(n, id, src, dest, mode, delay, status, now).0)
  {
    hide NodeOk, ReplyAtProxy, FailAtEnd;
    var k := KeyBySender(n.own, id, src, dest);
    if k in n.conns {
      if n.conns[k].point.MidPoint? {
        ReplyAtProxyOk(f, n, k, dest, mode, delay, status, now);
      } else {
        FailAtEndOk(f, n, n.conns[k], status, now);
        DropOk(f, FailAtEnd(n, n.conns[k], status, now), k);
      }
    }
  }

  /** At an endpoint a reply only ever removes the entry. */
  lemma FailAtEndOk(f: Facts, n: Node, c: Connection, status: bv32, now: int)
    requires NodeOk(f, n)
    ensures NodeOk(f, FailAtEnd(n, c, status, now)) && FailAtEnd(n, c, status, now).conns == n.conns
  {
    hide NodeOk, CallbackRequest, CreateErrorCode;
    var err := if status != ANSWER_OKAY && c.point.StartPoint? then status
               else CreateErrorCode(0, ERROR_PROTOCOL, c.point);
    CallbackKeepsTable(n, Callback(c.srcId, c.proxyId, c.destId, c.mode, c.point, 0, CbFailed, err), now);
    SameTableOk(f, n, FailAtEnd(n, c, status, now));
  }

  lemma RecvStartOk(f: Facts, n: Node, id: BdId, src: BdId, dest: BdId, mode: bv32, param: int, now: int)
    requires NodeOk(f, n)
    requires src.id != dest.id && id.id != src.id && Consent(Tuple(src.id, id.id, dest.id)) in f.auth
    ensures var m := RecvStart(n, id, src, dest, mode, param, now).0;
            NodeOk(Observe(f, m), m)
  {
    hide NodeOk, ConnOk, PacketOk, Observe;
    var k := KeyBySender(n.own, id, src, dest);
    var m := RecvStart(n, id, src, dest, mode, param, now).0;
    var g := Observe(f, m);
    NodeOkMonotone(f, g, n);
    if k in n.conns && (n.conns[k].state == WaitingStart || n.conns[k].state == Completed) {
      hide RecvStart;
      var c := n.conns[k];
      EntryOk(g, n, k);
      EntryIds(g, n.own, k, c);
      RecvStartTable(n, id, src, dest, mode, param, now);
      AcceptedStartOk(g, n.own, k, c, m.conns[k], id, src, dest, mode);
      PutOk(g, n, k, m.conns[k]);
      var n1 := n.(conns := m.conns);
      SendOk(g, n1, id, MsgAck, c.srcId, c.destId, mode, 0, ANSWER_OKAY);
      SameTableOk(g, n1.Send(id, MsgAck, c.srcId, c.destId, mode, 0, ANSWER_OKAY), m);
    }
  }

  lemma EntryIds(f: Facts, own: NodeId, k: Tuple, c: Connection)
    requires ConnOk(f, own, k, c)
    ensures c.HasIds(k) && c.srcConnAddr.id == k.src && c.destConnAddr.id == k.dest
  {
  }

  /** The completed entry and the acknowledgement are justified. */
  lemma AcceptedStartOk(g: Facts, own: NodeId, k: Tuple, c: Connection, d: Connection,
                        id: BdId, src: BdId, dest: BdId, mode: bv32)
    requires ConnOk(g, own, k, c) && (c.state == WaitingStart || c.state == Completed)
    requires k == KeyBySender(own, id, src, dest)
    requires Consent(Tuple(src.id, id.id, dest.id)) in g.auth && (own, k) in g.done
    requires d.state == Completed && d.HasIds(k) && d.point == c.point && d.mode == c.mode
    requires d.srcConnAddr.id == src.id && d.destConnAddr.id == dest.id
    ensures ConnOk(g, own, k, d)
    ensures PacketOk(g, Packet(own, id, ConnectMsg(MsgAck, c.srcId, c.destId, mode, 0, ANSWER_OKAY)))
  {
  }

  lemma CompletedEntry(c: Connection, src: BdId, dest: BdId, bandwidth: int, delay: int, now: int)
    ensures var d := CompleteConnection(c, src, dest, bandwidth, delay, now);
            && d.state == Completed && d.point == c.point && d.mode == c.mode
            && d.srcId == c.srcId && d.proxyId == c.proxyId && d.destId == c.destId
            && d.srcConnAddr.id == src.id && d.destConnAddr.id == dest.id
            && d.lastEvent == now && d.connectionStartTS == c.connectionStartTS && d.retryCount == c.retryCount
  {
  }

  /** An accepted START completes exactly the one entry and is acknowledged. */
  lemma RecvStartTable(n: Node, id: BdId, src: BdId, dest: BdId, mode: bv32, param: int, now: int)
    requires var k := KeyBySender(n.own, id, src, dest);
             k in n.conns && (n.conns[k].state == WaitingStart || n.conns[k].state == Completed)
    ensures var k := KeyBySender(n.own, id, src, dest);
            var c := n.conns[k];
            var m := RecvStart(n, id, src, dest, mode, param, now).0;
            && k in m.conns && m.conns == n.conns[k := m.conns[k]]
            && m.conns[k].state == Completed
            && m.conns[k].point == c.point && m.conns[k].mode == c.mode
            && (c.HasIds(k) ==> m.conns[k].HasIds(k))
            && (c.srcConnAddr.id == src.id && c.destConnAddr.id == dest.id
                ==> m.conns[k].srcConnAddr.id == src.id && m.conns[k].destConnAddr.id == dest.id)
            && m.sent == n.Send(id, MsgAck, c.srcId, c.destId, mode, 0, ANSWER_OKAY).sent
            && m.own == n.own
            && (RequestsOk(n) ==> RequestsOk(m))
  {
    hide RequestsOk, CallbackRequest, CompleteConnection;
    var k := KeyBySender(n.own, id, src, dest);
    var c := n.conns[k];
    if c.state == WaitingStart {
      CompletedEntry(c, src, dest, if c.mode == MODE_RELAY then param else 0,
                     if c.mode == MODE_RELAY then 0 else param, now);
      var relay := c.mode == MODE_RELAY;
      var d := CompleteConnection(c, src, dest, if relay then param else 0, if relay then 0 else param, now);
      var n2 := n.Send(id, MsgAck, c.srcId, c.destId, mode, 0, ANSWER_OKAY).(conns := n.conns[k := d]);
      CallbackKeepsTable(n2, Callback(d.srcConnAddr, d.proxyId, d.destConnAddr, d.mode, d.point, param, CbStart, 0),
                         now);
      SameRequestsOk(n, n2);
    } else {
      SameRequestsOk(n, RecvStart(n, id, src, dest, mode, param, now).0);
    }
  }

  lemma FinishTable(n: Node, k: Tuple, c: Connection, now: int)
    ensures var m := FinishConnection(n, k, c, now);
            m.sent == n.sent && (RequestsOk(n) ==> RequestsOk(m)) && m.conns == n.conns - {k}
  {
    CallbackKeepsTable(n, Callback(c.srcConnAddr, c.proxyId, c.destId, c.mode, c.point, 0, CbStart, 0), now);
  }

  /** An acknowledgement marks one entry, or removes it when both sides have answered. */
  lemma RecvAckTable(n: Node, id: BdId, src: BdId, dest: BdId, now: int)
    ensures var k := KeyBySender(n.own, id, src, dest);
            var m := RecvAck(n, id, src, dest, now).0;
            && m.sent == n.sent && (RequestsOk(n) ==> RequestsOk(m))
            && if k !in n.conns || n.conns[k].point.StartPoint? || n.conns[k].state != WaitingAck then m == n
               else var c := Acknowledge(n.conns[k], id.id, src.id, dest.id);
                    m.conns == if c.srcAck && c.destAck then n.conns - {k} else n.conns[k := c]
  {
    var k := KeyBySender(n.own, id, src, dest);
    if k in n.conns {
      FinishTable(n, k, Acknowledge(n.conns[k], id.id, src.id, dest.id), now);
    }
  }

  lemma AckEntryOk(f: Facts, own: NodeId, k: Tuple, c: Connection, id: BdId, src: BdId, dest: BdId)
    requires ConnOk(f, own, k, c) && c.state == WaitingAck && k == KeyBySender(own, id, src, dest)
    requires src.id != dest.id && (id.id == src.id || id.id == dest.id)
    requires (id.id, Tuple(src.id, own, dest.id)) in f.done
    ensures ConnOk(f, own, k, Acknowledge(c, id.id, src.id, dest.id))
  {
  }

  lemma RecvAckOk(f: Facts, n: Node, id: BdId, src: BdId, dest: BdId, now: int)
    requires NodeOk(f, n)
    requires src.id != dest.id && (id.id == src.id || id.id == dest.id)
    requires (id.id, Tuple(src.id, n.own, dest.id)) in f.done
    ensures NodeOk(f, RecvAck(n, id, src, dest, now).0)
  {
    hide NodeOk, ConnOk, RecvAck, Acknowledge;
    var k := KeyBySender(n.own, id, src, dest);
    var m := RecvAck(n, id, src, dest, now).0;
    RecvAckTable(n, id, src, dest, now);
    if k in n.conns && !n.conns[k].point.StartPoint? && n.conns[k].state == WaitingAck {
      EntryOk(f, n, k);
      AckEntryOk(f, n.own, k, n.conns[k], id, src, dest);
      PutOk(f, n, k, Acknowledge(n.conns[k], id.id, src.id, dest.id));
      DropOk(f, n, k);
      SameTableOk(f, n.(conns := m.conns), m);
    }
  }

  /** A proxy drops an acknowledged connection only when both ends completed it. */
  lemma ProxyFinishesAfterBoth(f: Facts, n: Node, id: BdId, src: BdId, dest: BdId, now: int, k: Tuple)
    requires NodeOk(f, n)
    requires src.id != dest.id && (id.id == src.id || id.id == dest.id)
    requires (id.id, Tuple(src.id, n.own, dest.id)) in f.done
    requires k in n.conns && n.conns[k].point == MidPoint
    requires k !in RecvAck(n, id, src, dest, now).0.conns
    ensures (k.src, k) in f.done && (k.dest, k) in f.done
  {
    RecvAckTable(n, id, src, dest, now);
    assert ConnOk(f, n.own, k, n.conns[k]);
    assert k == KeyBySender(n.own, id, src, dest);
  }

  // ---------------------------------------------------------------- timers

  lemma TickConnOk(f: Facts, n: Node, k: Tuple, now: int)
    requires NodeOk(f, n) && k in n.conns
    ensures NodeOk(f, TickConn(n, k, now).0)
  {
    hide NodeOk, Resend, CreateErrorCode;
    var c := n.conns[k];
    SameTableOk(f, n, n.CallFor(c, CbFailed, CreateErrorCode(0, ERROR_TIMEOUT, c.point)));
    if c.state == WaitingAck {
      ResendOk(f, n, k, now);
    }
  }

  lemma StartToOk(f: Facts, own: NodeId, k: Tuple, c: Connection, to: BdId, acked: bool, now: int)
    requires ConnOk(f, own, k, c) && c.state == WaitingAck
    ensures forall p :: p in StartTo(own, c, to, acked, now) ==> p.from == own && PacketOk(f, p)
  {
  }

  lemma SendAllOk(f: Facts, n: Node, ps: seq<Packet>)
    requires NodeOk(f, n) && forall p :: p in ps ==> p.from == n.own && PacketOk(f, p)
    ensures NodeOk(f, n.(sent := n.sent + ps))
  {
  }

  lemma RetriedOk(f: Facts, own: NodeId, k: Tuple, c: Connection, now: int)
    requires ConnOk(f, own, k, c)
    ensures ConnOk(f, own, k, c.(lastStart := now, retryCount := c.retryCount + 1))
  {
  }

  lemma ResendOk(f: Facts, n: Node, k: Tuple, now: int)
    requires NodeOk(f, n) && k in n.conns && n.conns[k].state == WaitingAck
    ensures NodeOk(f, Resend(n, k, now))
  {
    hide NodeOk, ConnOk, PacketOk, StartTo;
    var c := n.conns[k];
    var d := c.(lastStart := now, retryCount := c.retryCount + 1);
    EntryOk(f, n, k);
    RetriedOk(f, n.own, k, c, now);
    PutOk(f, n, k, d);
    StartToOk(f, n.own, k, c, c.srcId, c.srcAck, now);
    StartToOk(f, n.own, k, c, c.destId, c.destAck, now);
    var n1 := n.(conns := n.conns[k := d]);
    var ps := StartTo(n.own, c, c.srcId, c.srcAck, now) + StartTo(n.own, c, c.destId, c.destAck, now);
    SendAllOk(f, n1, ps);
    assert Resend(n, k, now) == n1.(sent := n1.sent + ps);
  }

  lemma {:induction false} VisitConnsOk(f: Facts, n: Node, ks: seq<Tuple>, now: int)
    requires NodeOk(f, n) && forall k :: k in ks ==> k in n.conns
    ensures NodeOk(f, VisitConns(n, ks, now).0)
  {
    if ks != [] {
      var last := |ks| - 1;
      VisitConnsOk(f, n, ks[..last], now);
      TickConnOk(f, VisitConns(n, ks[..last], now).0, ks[last], now);
    }
  }

  lemma TickConnsOk(f: Facts, n: Node, order: seq<Tuple>, now: int)
    requires NodeOk(f, n) && Lists(order, n.conns.Keys)
    ensures NodeOk(f, TickConns(n, order, now))
  {
    VisitConnsOk(f, n, order, now);
  }

  /** No request is about to use the node itself as its proxy. */
  ghost predicate NoSelfProxy(n: Node) {
    forall t :: t in n.reqs && n.reqs[t].goodProxies != [] ==> n.reqs[t].goodProxies[0].id.id != n.own
  }

  lemma StartRequestOk(f: Facts, n: Node, t: NodeId, now: int)
    requires NodeOk(f, n) && t in n.reqs
    requires n.reqs[t].goodProxies != [] ==> n.reqs[t].goodProxies[0].id.id != n.own
    ensures NodeOk(f, StartRequest(n, t, now).0)
  {
    if n.reqs[t].goodProxies != [] {
      var r := n.reqs[t];
      var n1, delay := StartRequestSteps(n, t, now);
      SetRequestOk(f, n, t, PopProxy(r, now));
      if (r.mode == MODE_DIRECT) == (r.target == r.goodProxies[0].id.id) {
        StartAttemptOk(f, n1, r.goodProxies[0].id, BdId(n.own, r.localAddr), BdId(r.target, NO_ADDR), r.mode,
                       delay, now);
      }
    }
  }

  lemma StartRequestSteps(n: Node, t: NodeId, now: int) returns (n1: Node, delay: int)
    requires t in n.reqs && n.reqs[t].goodProxies != []
    ensures var r := n.reqs[t];
            && n1 == n.(reqs := n.reqs[t := PopProxy(r, now)])
            && StartRequest(n, t, now).0
               == if (r.mode == MODE_DIRECT) != (r.target == r.goodProxies[0].id.id) then n1
                  else StartAttempt(n1, r.goodProxies[0].id, BdId(n.own, r.localAddr), BdId(r.target, NO_ADDR),
                                    r.mode, delay, now).0
  {
    var r := n.reqs[t];
    n1 := n.(reqs := n.reqs[t := PopProxy(r, now)]);
    var left := r.delay - (now - r.requestTS);
    delay := if left > 0 then left else 0;
  }

  /** Starting a request touches no other request. */
  lemma StartRequestFrame(n: Node, t: NodeId, now: int)
    requires t in n.reqs
    ensures var m := StartRequest(n, t, now).0;
            && m.own == n.own && m.reqs == n.reqs[t := m.reqs[t]] && m.reqs[t].target == n.reqs[t].target
  {
  }

  lemma SetRequestOk(f: Facts, n: Node, t: NodeId, r: Request)
    requires NodeOk(f, n) && t in n.reqs && r.target == t
    ensures NodeOk(f, n.(reqs := n.reqs[t := r]))
  {
  }

  lemma TickRequestOk(f: Facts, n: Node, t: NodeId, now: int)
    requires NodeOk(f, n) && t in n.reqs
    requires n.reqs[t].goodProxies != [] ==> n.reqs[t].goodProxies[0].id.id != n.own
    ensures NodeOk(f, TickRequest(n, t, now).0)
  {
    var r := n.reqs[t];
    assert r.target == t;
    if r.state == Ready {
      StartRequestOk(f, n, t, now);
      StartRequestFrame(n, t, now);
      var m := StartRequest(n, t, now).0;
      SetRequestOk(f, m, t, FinishRequest(m.reqs[t], ERROR_OUTOFPROXY, now));
    } else {
      SetRequestOk(f, n, t, AgeRequest(r, now));
    }
  }

  lemma TickRequestFrame(n: Node, t: NodeId, now: int)
    requires t in n.reqs
    ensures var m := TickRequest(n, t, now).0;
            && m.own == n.own && m.reqs == n.reqs[t := m.reqs[t]]
  {
    if n.reqs[t].state == Ready {
      StartRequestFrame(n, t, now);
    }
  }

  lemma {:induction false} VisitRequestsOk(f: Facts, n: Node, ts: seq<NodeId>, now: int)
    requires NodeOk(f, n) && NoSelfProxy(n)
    requires forall t :: t in ts ==> t in n.reqs
    requires forall i, j :: 0 <= i < j < |ts| ==> ts[i] != ts[j]
    ensures NodeOk(f, VisitRequests(n, ts, now).0)
    ensures forall u :: u in n.reqs && u !in ts ==> VisitRequests(n, ts, now).0.reqs[u] == n.reqs[u]
    ensures VisitRequests(n, ts, now).0.own == n.own
  {
    if ts != [] {
      var last := |ts| - 1;
      VisitRequestsOk(f, n, ts[..last], now);
      var m := VisitRequests(n, ts[..last], now).0;
      assert ts[last] !in ts[..last];
      TickRequestOk(f, m, ts[last], now);
      TickRequestFrame(m, ts[last], now);
    }
  }

  lemma TickRequestsOk(f: Facts, n: Node, order: seq<NodeId>, now: int)
    requires NodeOk(f, n) && NoSelfProxy(n) && Lists(order, n.reqs.Keys)
    ensures NodeOk(f, TickRequests(n, order, now))
  {
    VisitRequestsOk(f, n, order, now);
  }
}
