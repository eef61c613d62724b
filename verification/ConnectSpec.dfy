/**
 * What every operation of the connection manager does to a node, as functions
 * on the node's whole state.  `sent` and `calls` collect everything the node
 * ever sent and every upcall it ever made.
 */
module ConnectSpec {
  import opened Collections
  import opened Ids
  import opened ConnectTypes

  datatype Node = Node(
    own: NodeId, allowed: bv32, autoProxy: bool, relayServer: bool,
    conns: map<Tuple, Connection>, reqs: map<NodeId, Request>,
    sent: seq<Packet>, calls: seq<Callback>)
  {
    function Send(to: BdId, kind: MsgKind, src: BdId, dest: BdId, mode: bv32, param: int, status: bv32): Node {
      this.(sent := sent + [Packet(own, to, ConnectMsg(kind, src, dest, mode, param, status))])
    }

    function Call(cb: Callback): Node {
      this.(calls := calls + [cb])
    }

    function CallFor(c: Connection, kind: CbKind, err: bv32): Node {
      Call(Callback(c.srcId, c.proxyId, c.destId, c.mode, c.point, 0, kind, err))
    }

    /** In automatic proxy mode the upper layer is not told about proxied connections. */
    predicate Quiet(mode: bv32) {
      mode == MODE_PROXY && autoProxy
    }
  }

  // -------------------------------------------------------------- addressing

  function Position(own: NodeId, src: NodeId, dest: NodeId): Point {
    if own == src then StartPoint else if own == dest then EndPoint else MidPoint
  }

  function ProxyFor(own: NodeId, sender: NodeId, src: NodeId, dest: NodeId): NodeId {
    if Position(own, src, dest).MidPoint? then own else sender
  }

  function KeyBySender(own: NodeId, sender: BdId, src: BdId, dest: BdId): Tuple {
    Tuple(src.id, ProxyFor(own, sender.id, src.id, dest.id), dest.id)
  }

  predicate FindSimilar(conns: map<Tuple, Connection>, src: NodeId, dest: NodeId) {
    exists k :: k in conns && k.src == src && k.dest == dest
  }

  // ---------------------------------------------------------------- starting

  function StartAttempt(n: Node, proxy: BdId, src: BdId, dest: BdId, mode: bv32, delay: int, now: int)
    : (r: (Node, bool))
    ensures r.0.own == n.own && r.0.reqs == n.reqs
  {
    var k := KeyBySender(n.own, proxy, src, dest);
    if n.allowed & mode == 0 || k in n.conns || FindSimilar(n.conns, dest.id, src.id) then (n, false)
    else
      var c := if mode == MODE_DIRECT then ConnectionSetupDirect(proxy, src, now)
               else ConnectionSetup(proxy, src, dest, mode, delay, now);
      (n.Call(Callback(src, proxy, dest, mode, StartPoint, 0, CbRequest, 0))
       .(conns := n.conns[k := c])
       .Send(c.proxyId, MsgRequest, c.srcConnAddr, c.destConnAddr, c.mode, c.maxDelay, ANSWER_OKAY),
       true)
  }

  // ----------------------------------------------------------- authorisation

  function AuthOk(n: Node, src: BdId, proxy: BdId, dest: BdId, mode: bv32, loc: Point,
                  bandwidth: int, delay: int, now: int): (r: Node)
    ensures r.own == n.own
  {
    var k := Tuple(src.id, proxy.id, dest.id);
    if k !in n.conns || n.conns[k].state != WaitingAuth then n
    else if mode == MODE_DIRECT then
      n.(conns := n.conns[k := AuthoriseDirectConnection(n.conns[k], dest, now)])
    else if loc == EndPoint then
      var c := AuthoriseEndConnection(n.conns[k], dest, delay, now);
      n.(conns := n.conns[k := c])
      .Send(c.proxyId, MsgReply, c.srcConnAddr, c.destConnAddr, c.mode, c.maxDelay, ANSWER_OKAY)
    else
      var c := AuthoriseProxyConnection(n.conns[k], bandwidth, now);
      n.(conns := n.conns[k := c])
      .Send(c.destId, MsgRequest, c.srcConnAddr, c.destConnAddr, c.mode, 0, ANSWER_OKAY)
  }

  function AuthNo(n: Node, src: BdId, proxy: BdId, dest: BdId, mode: bv32, loc: Point, err: bv32): (r: Node)
    ensures r.own == n.own
  {
    var k := Tuple(src.id, proxy.id, dest.id);
    if k !in n.conns then n
    else
      var c := n.conns[k];
      var to := if mode != MODE_DIRECT && loc == EndPoint then c.proxyId else c.srcId;
      n.Send(to, MsgReply, c.srcConnAddr, c.destConnAddr, mode, 0,
             CreateErrorCode(err, ERROR_AUTH_DENIED, c.point))
      .(conns := n.conns - {k})
  }

  // ---------------------------------------------------------------- messages

  /** `found` is the address the routing table knows for the destination. */
  function RecvRequest(n: Node, id: BdId, src: BdId, dest: BdId, mode: bv32, delay: int,
                       found: Option<BdId>, now: int): (r: (Node, bool))
    ensures r.0.own == n.own
  {
    var k := KeyBySender(n.own, id, src, dest);
    match Objection(n, k, mode)
    case Some((error, point)) => (n.Send(id, MsgReply, src, dest, mode, 0, CreateErrorCode(0, error, point)), false)
    case None => (InstallRequested(n, k, id, src, dest, mode, delay, found, now), true)
  }

  /** Why a request cannot be taken up: mode not allowed, known already, or running the other way. */
  function Objection(n: Node, k: Tuple, mode: bv32): Option<(bv32, Point)> {
    if n.allowed & mode == 0 then Some((ERROR_UNSUPPORTED, Position(n.own, k.src, k.dest)))
    else if k in n.conns then Some((ERROR_DUPLICATE, n.conns[k].point))
    else if FindSimilar(n.conns, k.dest, k.src) then Some((ERROR_DUPLICATE, Position(n.own, k.src, k.dest)))
    else None
  }

  function InstallRequested(n: Node, k: Tuple, id: BdId, src: BdId, dest: BdId, mode: bv32, delay: int,
                            found: Option<BdId>, now: int): (r: Node)
    ensures r.own == n.own
  {
    if mode == MODE_DIRECT then
      var c := ConnectionRequestDirect(id, src, dest, now);
      n.(conns := n.conns[k := c]).CallFor(c, CbAuth, 0)
    else if src.id != id.id then
      var c := ConnectionRequestEnd(id, src, dest, mode, now);
      n.(conns := n.conns[k := c]).CallFor(c, CbAuth, 0)
    else if found.None? then
      var n1 := n.Send(id, MsgReply, src, dest, mode, 0, CreateErrorCode(0, ERROR_NOADDRESS, MidPoint));
      if n.relayServer
      then n1.Call(Callback(src, BdId(n.own, NO_ADDR), dest, mode, MidPoint, 0, CbAuth, ERROR_NOADDRESS))
      else n1
    else
      var c := ConnectionRequestProxy(id, src, n.own, found.value, mode, delay, now);
      var n1 := n.(conns := n.conns[k := c]);
      if n1.Quiet(mode) then AuthOk(n1, c.srcId, c.proxyId, c.destId, c.mode, c.point, 0, 0, now)
      else n1.CallFor(c, CbAuth, 0)
  }

  function RecvReply(n: Node, id: BdId, src: BdId, dest: BdId, mode: bv32, delay: int, status: bv32,
                     now: int): (r: (Node, bool))
    ensures r.0.own == n.own
  {
    var k := KeyBySender(n.own, id, src, dest);
    if k !in n.conns then (n, false)
    else
      var c := n.conns[k];
      if c.point.MidPoint? then ReplyAtProxy(n, k, c, dest, mode, delay, status, now)
      else
        var n1 := FailAtEnd(n, c, status, now);
        (n1.(conns := n1.conns - {k}), false)
  }

  function ReplyAtProxy(n: Node, k: Tuple, c: Connection, dest: BdId, mode: bv32, delay: int, status: bv32,
                        now: int): (r: (Node, bool))
    ensures r.0.own == n.own && r.0.reqs == n.reqs
  {
    if status == ANSWER_OKAY && c.state == WaitingReply then
      var u := UpgradeToFinish(c, dest, delay, now);
      var n1 := n.(conns := n.conns[k := u]);
      (if n.Quiet(u.mode) then n1 else n1.CallFor(u, CbPending, 0), true)
    else
      var err := if status == ANSWER_OKAY then CreateErrorCode(0, ERROR_PROTOCOL, c.point) else status;
      var n1 := if n.Quiet(c.mode) then n else n.CallFor(c, CbFailed, err);
      (n1.Send(c.srcId, MsgReply, c.srcConnAddr, c.destConnAddr, mode, 0, err)
       .(conns := n.conns - {k}), false)
  }

  /** Endpoints expect no reply but a refusal. */
  function FailAtEnd(n: Node, c: Connection, status: bv32, now: int): (r: Node)
    ensures r.own == n.own
  {
    var err := if status != ANSWER_OKAY && c.point.StartPoint? then status
               else CreateErrorCode(0, ERROR_PROTOCOL, c.point);
    if c.point.StartPoint?
    then CallbackRequest(n, Callback(c.srcId, c.proxyId, c.destId, c.mode, c.point, 0, CbFailed, err), now)
    else n.CallFor(c, CbFailed, err)
  }

  function RecvStart(n: Node, id: BdId, src: BdId, dest: BdId, mode: bv32, param: int, now: int): (r: (Node, bool))
    ensures r.0.own == n.own
  {
    var k := KeyBySender(n.own, id, src, dest);
    if k !in n.conns || (n.conns[k].state != WaitingStart && n.conns[k].state != Completed) then (n, false)
    else
      var c := n.conns[k];
      var n1 := n.Send(id, MsgAck, c.srcId, c.destId, mode, 0, ANSWER_OKAY);
      if c.state == Completed then (n1, true)
      else
        var relay := c.mode == MODE_RELAY;
        var d := CompleteConnection(c, src, dest, if relay then param else 0, if relay then 0 else param, now);
        (CallbackRequest(n1.(conns := n1.conns[k := d]),
                         Callback(d.srcConnAddr, d.proxyId, d.destConnAddr, d.mode, d.point, param, CbStart, 0), now),
         true)
  }

  function RecvAck(n: Node, id: BdId, src: BdId, dest: BdId, now: int): (r: (Node, bool))
    ensures r.0.own == n.own
  {
    var k := KeyBySender(n.own, id, src, dest);
    if k !in n.conns || n.conns[k].point.StartPoint? || n.conns[k].state != WaitingAck then (n, false)
    else
      var c := Acknowledge(n.conns[k], id.id, src.id, dest.id);
      if !(c.srcAck && c.destAck) then (n.(conns := n.conns[k := c]), true)
      else (FinishConnection(n, k, c, now), true)
  }

  /** Both sides have acknowledged: tell whoever wants to know and drop the entry. */
  function FinishConnection(n: Node, k: Tuple, c: Connection, now: int): (r: Node)
    ensures r.own == n.own
  {
    var n1 := if c.mode == MODE_DIRECT
              then CallbackRequest(n, Callback(c.srcConnAddr, c.proxyId, c.destId, c.mode, c.point, 0, CbStart, 0), now)
              else if n.Quiet(c.mode) then n
              else n.CallFor(c, CbProxy, 0);
    n1.(conns := n1.conns - {k})
  }

  function Acknowledge(c: Connection, sender: NodeId, src: NodeId, dest: NodeId): Connection {
    if sender == src then c.(srcAck := true)
    else if sender == dest then c.(destAck := true)
    else c
  }

  // -------------------------------------------------------- connection timers

  /** One visit of the timer loop: the node and whether the entry is to go. */
  function TickConn(n: Node, k: Tuple, now: int): (r: (Node, bool))
    requires k in n.conns
    ensures r.0.own == n.own && r.0.conns.Keys == n.conns.Keys
    ensures r.0.(conns := n.conns, sent := n.sent, calls := n.calls) == n
  {
    var c := n.conns[k];
    if now - c.lastEvent > CONNECTION_MAX_TIMEOUT then (n, true)
    else if c.state != WaitingAck || now - c.lastStart <= START_RETRY_PERIOD then (n, false)
    else if c.retryCount > START_MAX_RETRY then
      (if n.Quiet(c.mode) then n
       else n.CallFor(c, CbFailed, CreateErrorCode(0, ERROR_TIMEOUT, c.point)), true)
    else
      hide Resend;
      (Resend(n, k, now), false)
  }

  function Resend(n: Node, k: Tuple, now: int): (r: Node)
    requires k in n.conns
    ensures r.conns.Keys == n.conns.Keys
  {
    var c := n.conns[k];
    n.(conns := n.conns[k := c.(lastStart := now, retryCount := c.retryCount + 1)],
       sent := n.sent + (StartTo(n.own, c, c.srcId, c.srcAck, now) + StartTo(n.own, c, c.destId, c.destAck, now)))
  }

  /** The START message to one side, unless this side has acknowledged. */
  function StartTo(own: NodeId, c: Connection, to: BdId, acked: bool, now: int): seq<Packet> {
    if acked then []
    else
      var left := c.maxDelay - (now - c.connectionStartTS);
      var param := if c.mode == MODE_RELAY then c.bandwidth else if left < 0 then 0 else left;
      [Packet(own, to, ConnectMsg(MsgStart, c.srcConnAddr, c.destConnAddr, c.mode, param, ANSWER_OKAY))]
  }

  /** The loop over the table in the order `ks`; entries are erased afterwards. */
  function VisitConns(n: Node, ks: seq<Tuple>, now: int): (r: (Node, set<Tuple>))
    requires forall k :: k in ks ==> k in n.conns
    ensures r.0.conns.Keys == n.conns.Keys && r.1 <= n.conns.Keys
    ensures r.0.(conns := n.conns, sent := n.sent, calls := n.calls) == n
  {
    if ks == [] then (n, {})
    else
      var last := |ks| - 1;
      var (m, gone) := VisitConns(n, ks[..last], now);
      hide TickConn;
      var (m', erase) := TickConn(m, ks[last], now);
      (m', if erase then gone + {ks[last]} else gone)
  }

  ghost predicate Lists<K(!new)>(order: seq<K>, keys: set<K>) {
    && (forall k :: k in keys <==> k in order)
    && (forall i, j :: 0 <= i < j < |order| ==> order[i] != order[j])
  }

  function TickConns(n: Node, order: seq<Tuple>, now: int): (r: Node)
    requires Lists(order, n.conns.Keys)
    ensures r.own == n.own
  {
    var (m, gone) := VisitConns(n, order, now);
    m.(conns := m.conns - gone)
  }

  // ------------------------------------------------------ connection requests

  datatype Move = Fatal | Recycle | NextProxy

  /** What a failed attempt means for the whole request. */
  function Decide(err: bv32, mode: bv32): Move {
    var errType := ErrType(err);
    var errSrc := err & MASK_SOURCE;
    if errType == ERROR_UNREACHABLE then
      if errSrc == SOURCE_END && mode == MODE_PROXY then Fatal else NextProxy
    else if errType == ERROR_AUTH_DENIED || errType == ERROR_UNSUPPORTED then
      if errSrc == SOURCE_END then Fatal else NextProxy
    else if errType == ERROR_TEMPUNAVAIL || errType == ERROR_DUPLICATE then Fatal
    else if errType == ERROR_OVERLOADED then
      if errSrc == SOURCE_MID && mode == MODE_RELAY then Recycle else NextProxy
    else NextProxy
  }

  function FailRequest(r: Request, mode: bv32, err: bv32, now: int): Request {
    var tried := ProxyId(r.currentAttempt, r.currentSrcType, err);
    match Decide(err, mode)
    case Fatal => r.(state := Done, stateTS := now, errCode := err)
    case Recycle =>
      r.(goodProxies := r.goodProxies + [tried], recycled := r.recycled + 1,
         state := Paused, pauseTS := now + PAUSE_SHORT_PERIOD, stateTS := now, errCode := err)
    case NextProxy =>
      r.(peersTried := r.peersTried + [tried],
         state := Paused, pauseTS := now + PAUSE_SHORT_PERIOD, stateTS := now, errCode := err)
  }

  /** At its start a connection can fail or be made; at its end a request the other way may learn that it is made. */
  predicate Matters(cb: Callback) {
    if cb.point == StartPoint then cb.kind == CbFailed || cb.kind == CbStart
    else cb.point == EndPoint && cb.kind == CbStart
  }

  /** The request that an upcall is about is the one for the peer at the other end. */
  function Peer(cb: Callback): NodeId {
    if cb.point == StartPoint then cb.dest.id else cb.src.id
  }

  function TellRequest(r: Request, cb: Callback, now: int): Request {
    if cb.kind == CbFailed then FailRequest(r, cb.mode, cb.err, now) else r.(state := ExtConnect, stateTS := now)
  }

  function TellRequests(reqs: map<NodeId, Request>, cb: Callback, now: int): (r: map<NodeId, Request>)
    ensures r.Keys == reqs.Keys
  {
    if Matters(cb) && Peer(cb) in reqs then reqs[Peer(cb) := TellRequest(reqs[Peer(cb)], cb, now)] else reqs
  }

  /** The internal upcall: first the request that caused the connection, then the upper layer. */
  function CallbackRequest(n: Node, cb: Callback, now: int): Node {
    var told := Matters(cb) && (cb.point == EndPoint || Peer(cb) in n.reqs);
    n.(reqs := TellRequests(n.reqs, cb, now), calls := if told then n.calls + [cb] else n.calls)
  }

  function FinishRequest(r: Request, err: bv32, now: int): Request {
    r.(errCode := SOURCE_START | err, state := Done, stateTS := now)
  }

  /** Takes the next proxy off the list. */
  function PopProxy(r: Request, now: int): Request
    requires r.goodProxies != []
  {
    r.(goodProxies := r.goodProxies[1..],
       currentAttempt := r.goodProxies[0].id, currentSrcType := r.goodProxies[0].srcType,
       state := InProgress, stateTS := now)
  }

  function StartRequest(n: Node, t: NodeId, now: int): (r: (Node, bool))
    requires t in n.reqs
    ensures r.0.own == n.own && r.0.reqs.Keys == n.reqs.Keys
  {
    hide StartAttempt;
    var r := n.reqs[t];
    if r.goodProxies == [] then (n, false)
    else
      var proxy := r.goodProxies[0].id;
      var left := r.delay - (now - r.requestTS);
      var n1 := n.(reqs := n.reqs[t := PopProxy(r, now)]);
      if (r.mode == MODE_DIRECT) != (r.target == proxy.id) then (n1, false)
      else StartAttempt(n1, proxy, BdId(n.own, r.localAddr), BdId(r.target, NO_ADDR), r.mode,
                        if left > 0 then left else 0, now)
  }

  /** The timer's effect on a request that is not ready to start. */
  function AgeRequest(r: Request, now: int): Request {
    match r.state
    case Paused =>
      if now <= r.pauseTS then r
      else if r.goodProxies == [] then FinishRequest(r, ERROR_OUTOFPROXY, now)
      else if r.recycled > |r.goodProxies| * MAX_NUM_RETRIES then FinishRequest(r, ERROR_TOOMANYRETRY, now)
      else r.(state := Ready, stateTS := now)
    case InProgress =>
      if now - r.stateTS > REQUEST_TIMEOUT_INPROGRESS
      then r.(state := Paused, stateTS := now, pauseTS := now + PAUSE_SHORT_PERIOD) else r
    case ExtConnect =>
      if now - r.stateTS > REQUEST_TIMEOUT_CONNECT then FinishRequest(r, ERROR_PROTOCOL, now) else r
    case Ready => r
    case Done => r
  }

  function TickRequest(n: Node, t: NodeId, now: int): (r: (Node, bool))
    requires t in n.reqs
    ensures r.0.own == n.own && r.0.reqs.Keys == n.reqs.Keys
  {
    hide StartRequest;
    var r := n.reqs[t];
    if r.state == Ready then
      var (m, ok) := StartRequest(n, t, now);
      (if ok then m else m.(reqs := m.reqs[t := FinishRequest(m.reqs[t], ERROR_OUTOFPROXY, now)]), false)
    else if r.state == Done then
      (n.Call(Callback(NO_ID, NO_ID, BdId(r.target, NO_ADDR), r.mode, StartPoint, 0, CbRequest, r.errCode)), true)
    else (n.(reqs := n.reqs[t := AgeRequest(r, now)]), false)
  }

  function VisitRequests(n: Node, ts: seq<NodeId>, now: int): (r: (Node, set<NodeId>))
    requires forall t :: t in ts ==> t in n.reqs
    ensures r.0.reqs.Keys == n.reqs.Keys && r.1 <= n.reqs.Keys && r.0.own == n.own
  {
    if ts == [] then (n, {})
    else
      var last := |ts| - 1;
      var (m, gone) := VisitRequests(n, ts[..last], now);
      hide TickRequest;
      var (m', erase) := TickRequest(m, ts[last], now);
      (m', if erase then gone + {ts[last]} else gone)
  }

  function TickRequests(n: Node, order: seq<NodeId>, now: int): (r: Node)
    requires Lists(order, n.reqs.Keys)
    ensures r.own == n.own
  {
    var (m, gone) := VisitRequests(n, order, now);
    m.(reqs := m.reqs - gone)
  }

  // --------------------------------------------------- requests from the user

  /** `proxies` is the list gathered from the queries and the routing table. */
  function NewRequest(n: Node, local: Addr, target: NodeId, mode: bv32, delay: int,
                      proxies: seq<ProxyId>, potential: seq<BdId>, now: int): (r: (Node, bool))
    ensures r.0.own == n.own && r.0.conns == n.conns && r.0.sent == n.sent
  {
    if n.allowed & mode == 0 || target == n.own || target in n.reqs then (n, false)
    else (n.(reqs := n.reqs[target := FreshRequest(local, target, mode, delay, proxies, potential, now)]), true)
  }

  /** A new request; a proxied one with fewer than three proxies waits for more. */
  function FreshRequest(local: Addr, target: NodeId, mode: bv32, delay: int,
                        proxies: seq<ProxyId>, potential: seq<BdId>, now: int): Request
  {
    var direct := mode == MODE_DIRECT;
    var wait := !direct && |proxies| < MIN_START_PROXY_COUNT;
    Request(target, local, mode, if wait then Paused else Ready, now, if wait then now + PAUSE_START_PERIOD else 0, 0,
            if direct then 0 else delay, now, proxies, potential, 0, NO_ID, SrcUnknown, [])
  }

  function KillRequest(n: Node, target: NodeId, now: int): (r: (Node, bool))
    ensures r.0.own == n.own && r.0.conns == n.conns && r.0.sent == n.sent
  {
    if target !in n.reqs then (n, false)
    else (n.(reqs := n.reqs[target := FinishRequest(n.reqs[target], ERROR_USER, now)]), true)
  }

  predicate Holds(ps: seq<ProxyId>, id: BdId) {
    exists i :: 0 <= i < |ps| && ps[i].id == id
  }

  function RemoveFirst(s: seq<BdId>, id: BdId): seq<BdId> {
    if s == [] then [] else if s[0] == id then s[1..] else [s[0]] + RemoveFirst(s[1..], id)
  }

  function AddGoodProxy(r: Request, id: BdId): Request {
    if id == r.currentAttempt || Holds(r.peersTried, id) || Holds(r.goodProxies, id) then r
    else r.(goodProxies := r.goodProxies + [ProxyId(id, AddGoodProxySource, 0)],
            potentialProxies := RemoveFirst(r.potentialProxies, id))
  }

  function CheckGoodProxy(r: Request, id: BdId): Request {
    if id in r.potentialProxies
    then AddGoodProxy(r.(potentialProxies := RemoveFirst(r.potentialProxies, id)), id) else r
  }

  /** `engine` tells whether the routing table knows `id` as a peer of this program. */
  function AddPotentialProxy(n: Node, id: BdId, target: NodeId, engine: bool): (r: Node)
    ensures r.own == n.own && r.conns == n.conns && r.sent == n.sent
  {
    if target !in n.reqs || n.reqs[target].mode == MODE_DIRECT || id.id == target || !engine then n
    else n.(reqs := n.reqs[target := AddGoodProxy(n.reqs[target], id)])
  }

  function UpdatePotentialProxy(n: Node, id: BdId): (r: Node)
    ensures r.own == n.own && r.conns == n.conns && r.sent == n.sent
  {
    n.(reqs := CheckAll(n.reqs, id))
  }

  function CheckAll(reqs: map<NodeId, Request>, id: BdId): map<NodeId, Request> {
    map t | t in reqs :: CheckGoodProxy(reqs[t], id)
  }
}
