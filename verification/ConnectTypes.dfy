/** Constants, records and messages of the connection handshake. */
module ConnectTypes {
  import opened Collections
  import opened Ids

  const MODE_DIRECT: bv32 := 1
  const MODE_PROXY: bv32 := 2
  const MODE_RELAY: bv32 := 4

  const ANSWER_OKAY: bv32 := 0

  const MASK_TYPE: bv32 := 0x0000_ffff
  const MASK_SOURCE: bv32 := 0x00ff_0000

  const SOURCE_START: bv32 := 0x0001_0000
  const SOURCE_MID: bv32 := 0x0002_0000
  const SOURCE_END: bv32 := 0x0004_0000

  const ERROR_GENERIC: bv32 := 1
  const ERROR_PROTOCOL: bv32 := 2
  const ERROR_TIMEOUT: bv32 := 3
  const ERROR_TEMPUNAVAIL: bv32 := 4
  const ERROR_NOADDRESS: bv32 := 5
  const ERROR_UNREACHABLE: bv32 := 6
  const ERROR_UNSUPPORTED: bv32 := 7
  const ERROR_OVERLOADED: bv32 := 8
  const ERROR_AUTH_DENIED: bv32 := 9
  const ERROR_DUPLICATE: bv32 := 10
  const ERROR_TOOMANYRETRY: bv32 := 11
  const ERROR_OUTOFPROXY: bv32 := 12
  const ERROR_USER: bv32 := 13

  const START_RETRY_PERIOD := 3
  const START_MAX_RETRY := 3
  const CONNECTION_MAX_TIMEOUT := 20

  const REQUEST_TIMEOUT_CONNECT := 300
  const REQUEST_TIMEOUT_INPROGRESS := 30
  const PAUSE_SHORT_PERIOD := 1
  const PAUSE_START_PERIOD := 10
  const MIN_START_PROXY_COUNT: nat := 3
  const MAX_NUM_RETRIES: nat := 3

  const NO_ID := BdId(Key([0, 0, 0, 0, 0, 0, 0, 0, 0, 0, 0, 0, 0, 0, 0, 0, 0, 0, 0, 0]), NO_ADDR)

  /** The key of the connection table. */
  datatype Tuple = Tuple(src: NodeId, proxy: NodeId, dest: NodeId)

  datatype Point = UnknownPoint | StartPoint | MidPoint | EndPoint

  datatype ConnState = WaitingAuth | WaitingReply | WaitingStart | WaitingAck | Completed {
    /** The number the state has in the program. */
    function Rank(): nat {
      match this
      case WaitingAuth => 1
      case WaitingReply => 2
      case WaitingStart => 3
      case WaitingAck => 4
      case Completed => 5
    }
  }

  datatype MsgKind = MsgRequest | MsgReply | MsgStart | MsgAck

  datatype ConnectMsg = ConnectMsg(kind: MsgKind, src: BdId, dest: BdId, mode: bv32, param: int, status: bv32)

  /** A message on the wire: who sent it and to which peer. */
  datatype Packet = Packet(from: NodeId, to: BdId, msg: ConnectMsg)

  datatype CbKind = CbAuth | CbPending | CbStart | CbProxy | CbFailed | CbRequest

  /** An upcall to the layer that owns the connection manager. */
  datatype Callback = Callback(src: BdId, proxy: BdId, dest: BdId, mode: bv32, point: Point,
                               param: int, kind: CbKind, err: bv32)

  function ErrType(err: bv32): bv32 {
    err & MASK_TYPE
  }

  function Marked(err: bv32, source: bv32): bv32 {
    err | source
  }

  lemma ErrTypeTwice(err: bv32)
    ensures ErrType(ErrType(err)) == ErrType(err)
  {
  }

  lemma MarkedIsNotZero(err: bv32, source: bv32)
    ensures err != 0 ==> Marked(err, source) != 0
  {
  }

  /** Never ANSWER_OKAY: a refusal cannot be read as an acceptance. */
  function CreateErrorCode(user: bv32, fallback: bv32, point: Point): (status: bv32)
    ensures status != ANSWER_OKAY
    ensures point.UnknownPoint? && ErrType(user) != 0 ==> ErrType(status) == ErrType(user)
  {
    hide ErrType, Marked;
    var given := ErrType(user);
    var typed := if given == ANSWER_OKAY then fallback else given;
    var known := if typed == ANSWER_OKAY then ERROR_GENERIC else typed;
    ErrTypeTwice(user);
    MarkedIsNotZero(known, SOURCE_START);
    MarkedIsNotZero(known, SOURCE_MID);
    MarkedIsNotZero(known, SOURCE_END);
    match point
    case StartPoint => Marked(known, SOURCE_START)
    case MidPoint => Marked(known, SOURCE_MID)
    case EndPoint => Marked(known, SOURCE_END)
    case UnknownPoint => known
  }

  lemma ErrorCodeFields(user: bv32, fallback: bv32, point: Point)
    requires fallback != 0 && ErrType(fallback) == fallback
    ensures ErrType(CreateErrorCode(user, fallback, point)) == if ErrType(user) != 0 then ErrType(user) else fallback
    ensures CreateErrorCode(user, fallback, point) & MASK_SOURCE
         == (match point case StartPoint => SOURCE_START case MidPoint => SOURCE_MID
             case EndPoint => SOURCE_END case UnknownPoint => 0)
  {
  }

  /** One entry of the connection table. */
  datatype Connection = Connection(
    state: ConnState, lastEvent: int,
    srcId: BdId, destId: BdId, proxyId: BdId,
    point: Point, mode: bv32,
    srcConnAddr: BdId, destConnAddr: BdId,
    bandwidth: int, maxDelay: int, connectionStartTS: int,
    lastStart: int, retryCount: int, srcAck: bool, destAck: bool, completedTS: int)
  {
    predicate HasIds(k: Tuple) {
      srcId.id == k.src && proxyId.id == k.proxy && destId.id == k.dest
    }
  }

  function ClearAddr(b: BdId): BdId {
    BdId(b.id, NO_ADDR)
  }

  /** An empty connection address stands for the address of the DHT node. */
  function DefaultAddress(conn: BdId, peer: BdId): BdId {
    if conn.addr.ip == ZERO_IP then BdId(conn.id, peer.addr) else conn
  }

  function NewConnection(state: ConnState, src: BdId, dest: BdId, proxy: BdId, point: Point, mode: bv32,
                         srcConn: BdId, destConn: BdId, delay: int, now: int): Connection {
    Connection(state, now, src, dest, proxy, point, mode, srcConn, destConn, 0, delay, now,
               0, 0, false, false, 0)
  }

  // Source: started by the user, through a proxy or directly.
  function ConnectionSetup(proxy: BdId, src: BdId, dest: BdId, mode: bv32, delay: int, now: int): Connection {
    NewConnection(WaitingStart, ClearAddr(src), ClearAddr(dest), proxy, StartPoint, mode,
                  src, ClearAddr(dest), delay, now)
  }

  function ConnectionSetupDirect(dest: BdId, src: BdId, now: int): Connection {
    NewConnection(WaitingStart, ClearAddr(src), dest, dest, StartPoint, MODE_DIRECT,
                  src, ClearAddr(dest), 0, now)
  }

  // A request has come in: direct end, proxy, or proxied end.
  function ConnectionRequestDirect(id: BdId, src: BdId, dest: BdId, now: int): Connection {
    NewConnection(WaitingAuth, id, ClearAddr(dest), id, EndPoint, MODE_DIRECT,
                  src, ClearAddr(dest), 0, now)
  }

  function ConnectionRequestProxy(id: BdId, src: BdId, own: NodeId, dest: BdId, mode: bv32, delay: int,
                                  now: int): Connection {
    NewConnection(WaitingAuth, id, dest, BdId(own, NO_ADDR), MidPoint, mode,
                  src, ClearAddr(dest), delay, now)
  }

  function ConnectionRequestEnd(id: BdId, src: BdId, dest: BdId, mode: bv32, now: int): Connection {
    NewConnection(WaitingAuth, ClearAddr(src), ClearAddr(dest), id, EndPoint, mode,
                  ClearAddr(src), ClearAddr(dest), 0, now)
  }

  // Authorised.
  function AuthoriseProxyConnection(c: Connection, bandwidth: int, now: int): Connection {
    c.(state := WaitingReply, lastEvent := now, bandwidth := bandwidth,
       proxyId := ClearAddr(c.proxyId), destConnAddr := ClearAddr(c.destConnAddr))
  }

  function AuthoriseEndConnection(c: Connection, dest: BdId, delay: int, now: int): Connection {
    c.(state := WaitingStart, lastEvent := now, maxDelay := delay + (now - c.connectionStartTS),
       destConnAddr := dest,
       srcId := ClearAddr(c.srcId), destId := ClearAddr(c.destId), srcConnAddr := ClearAddr(c.srcConnAddr),
       retryCount := 0, lastStart := 0, srcAck := false, destAck := true, completedTS := 0)
  }

  function AuthoriseDirectConnection(c: Connection, dest: BdId, now: int): Connection {
    c.(state := WaitingAck, lastEvent := now, destId := ClearAddr(c.destId),
       srcConnAddr := DefaultAddress(c.srcConnAddr, c.srcId),
       destConnAddr := DefaultAddress(dest, ClearAddr(c.destId)),
       retryCount := 0, lastStart := 0, srcAck := false, destAck := true, completedTS := 0)
  }

  // At the proxy: the destination has agreed.
  function UpgradeToFinish(c: Connection, dest: BdId, secondDelay: int, now: int): Connection {
    var elapsed := now - c.connectionStartTS;
    c.(state := WaitingAck, lastEvent := now,
       maxDelay := if secondDelay > c.maxDelay - elapsed then secondDelay + elapsed else c.maxDelay,
       proxyId := ClearAddr(c.proxyId),
       srcConnAddr := DefaultAddress(c.srcConnAddr, c.srcId), destConnAddr := DefaultAddress(dest, c.destId),
       retryCount := 0, lastStart := 0, srcAck := false, destAck := false, completedTS := 0)
  }

  // At an endpoint: START has come in.
  function CompleteConnection(c: Connection, src: BdId, dest: BdId, bandwidth: int, delay: int,
                              now: int): Connection {
    var elapsed := now - c.connectionStartTS;
    c.(state := Completed, completedTS := now, lastEvent := now, bandwidth := bandwidth,
       maxDelay := if delay > c.maxDelay - elapsed then delay + elapsed else c.maxDelay,
       srcConnAddr := DefaultAddress(src, c.srcId), destConnAddr := DefaultAddress(dest, c.destId))
  }

  datatype ReqState = Ready | Paused | InProgress | ExtConnect | Done

  datatype ProxySource = SrcUnknown | QueryResult | QueryProxy | NodeSpaceFriend | NodeSpaceServer
                       | NodeSpaceEngineVersion | AddGoodProxySource

  datatype ProxyId = ProxyId(id: BdId, srcType: ProxySource, errcode: bv32)

  /** One entry of the table of connection requests, keyed by its target. */
  datatype Request = Request(
    target: NodeId, localAddr: Addr, mode: bv32,
    state: ReqState, stateTS: int, pauseTS: int, errCode: bv32,
    delay: int, requestTS: int,
    goodProxies: seq<ProxyId>, potentialProxies: seq<BdId>, recycled: nat,
    currentAttempt: BdId, currentSrcType: ProxySource, peersTried: seq<ProxyId>)
}
