/** The messages of the DHT as bencoded trees: how they are built, classified and read. */
module Messages {
  import opened Collections
  import opened Ids
  import B = Bencode

  type Byte = B.Byte
  type Text = B.Text
  type Node = B.Node

  const TOKEN_MAX_LEN := 20
  const COMPACT_NODE_ID_LEN := 26
  const COMPACT_PEER_ID_LEN := 6
  const MAX_PKT_SIZE := 1024

  /** A transaction id, a write token or a version. */
  type Token = t: Text | |t| <= TOKEN_MAX_LEN

  type Int32 = i: int | -0x8000_0000 <= i < 0x8000_0000

  // The keys and words of the protocol, in ASCII.
  const A: Text := [97]
  const E_L: Text := [108]
  const E_O: Text := [111]
  const Q: Text := [113]
  const R: Text := [114]
  const T: Text := [116]
  const V: Text := [118]
  const Y: Text := [121]
  const ID: Text := [105, 100]
  const SRC: Text := [115, 114, 99]
  const DEST: Text := [100, 101, 115, 116]
  const MODE: Text := [109, 111, 100, 101]
  const PORT: Text := [112, 111, 114, 116]
  const TYPE: Text := [116, 121, 112, 101]
  const PING: Text := [112, 105, 110, 103]
  const NODES: Text := [110, 111, 100, 101, 115]
  const PARAM: Text := [112, 97, 114, 97, 109]
  const TOKEN: Text := [116, 111, 107, 101, 110]
  const STATUS: Text := [115, 116, 97, 116, 117, 115]
  const TARGET: Text := [116, 97, 114, 103, 101, 116]
  const VALUES: Text := [118, 97, 108, 117, 101, 115]
  const CONNECT: Text := [99, 111, 110, 110, 101, 99, 116]
  const INFO_HASH: Text := [105, 110, 102, 111, 95, 104, 97, 115, 104]
  const FIND_NODE: Text := [102, 105, 110, 100, 95, 110, 111, 100, 101]
  const GET_PEERS: Text := [103, 101, 116, 95, 112, 101, 101, 114, 115]
  const ANNOUNCE: Text := [97, 110, 110, 111, 117, 110, 99, 101, 95, 112, 101, 101, 114]

  // ------------------------------------------------------------- compact forms

  function ByteOf(b: bv8): Byte {
    b as int
  }

  function RawOf(b: Byte): bv8 {
    b as bv8
  }

  function IdText(id: NodeId): (t: Text)
    ensures |t| == KEY_LEN
  {
    seq(KEY_LEN, i requires 0 <= i < KEY_LEN => ByteOf(id.data[i]))
  }

  function IdOf(t: Text): NodeId
    requires |t| >= KEY_LEN
  {
    Key(seq(KEY_LEN, i requires 0 <= i < KEY_LEN => RawOf(t[i])))
  }

  /** Address and port as they lie in memory. */
  function AddrText(a: Addr): (t: Text)
    ensures |t| == COMPACT_PEER_ID_LEN
  {
    [ByteOf(a.ip.a), ByteOf(a.ip.b), ByteOf(a.ip.c), ByteOf(a.ip.d), ByteOf(a.port.hi), ByteOf(a.port.lo)]
  }

  function AddrOf(t: Text): Addr
    requires |t| >= COMPACT_PEER_ID_LEN
  {
    Addr(Ip(RawOf(t[0]), RawOf(t[1]), RawOf(t[2]), RawOf(t[3])), Port(RawOf(t[4]), RawOf(t[5])))
  }

  function CompactNodeId(id: BdId): (t: Text)
    ensures |t| == COMPACT_NODE_ID_LEN
  {
    IdText(id.id) + AddrText(id.addr)
  }

  function DecodeCompactNodeId(t: Text): BdId
    requires |t| >= COMPACT_NODE_ID_LEN
  {
    BdId(IdOf(t), AddrOf(t[KEY_LEN..]))
  }

  function CompactNodeIds(ids: seq<BdId>): (t: Text)
    ensures |t| == COMPACT_NODE_ID_LEN * |ids|
  {
    if ids == [] then [] else CompactNodeIds(ids[..|ids| - 1]) + CompactNodeId(ids[|ids| - 1])
  }

  /** As many ids as fit; a rest that is too short is ignored. */
  function NodeIdsOf(t: Text): seq<BdId> {
    if |t| < COMPACT_NODE_ID_LEN then []
    else [DecodeCompactNodeId(t)] + NodeIdsOf(t[COMPACT_NODE_ID_LEN..])
  }

  // ------------------------------------------------------------------ building

  datatype Msg =
    | Ping(tid: Token, id: NodeId, version: Option<Token>)
    | Pong(tid: Token, id: NodeId, vid: Token)
    | FindNode(tid: Token, id: NodeId, target: NodeId, local: bool)
    | ReplyNode(tid: Token, id: NodeId, nodes: seq<BdId>)
    | GetPeers(tid: Token, id: NodeId, hash: NodeId)
    | ReplyHash(tid: Token, id: NodeId, token: Token, values: seq<Text>)
    | ReplyNear(tid: Token, id: NodeId, token: Token, nodes: seq<BdId>)
    | Announce(tid: Token, id: NodeId, hash: NodeId, port: nat, token: Token)
    | ReplyAnnounce(tid: Token, id: NodeId)
    | Connect(tid: Token, id: NodeId, kind: Int32, src: BdId, dest: BdId, mode: Int32, param: Int32, status: Int32)

  function StrNode(t: Text): Node {
    B.Str(Some(t))
  }

  function IdEntry(id: NodeId): B.Entry {
    B.Entry(ID, StrNode(IdText(id)))
  }

  function StrNodes(values: seq<Text>): (ns: seq<Node>)
    ensures |ns| == |values| && forall i :: 0 <= i < |ns| ==> ns[i] == StrNode(values[i])
  {
    seq(|values|, i requires 0 <= i < |values| => StrNode(values[i]))
  }

  /** The inner dictionary: arguments of a query, values of a reply. */
  function Data(m: Msg): seq<B.Entry> {
    match m
    case Ping(_, id, _) => [IdEntry(id)]
    case Pong(_, id, _) => [IdEntry(id)]
    case FindNode(_, id, target, _) => [IdEntry(id), B.Entry(TARGET, StrNode(IdText(target)))]
    case ReplyNode(_, id, nodes) => [IdEntry(id), B.Entry(NODES, StrNode(CompactNodeIds(nodes)))]
    case GetPeers(_, id, hash) => [IdEntry(id), B.Entry(INFO_HASH, StrNode(IdText(hash)))]
    case ReplyHash(_, id, token, values) =>
      [IdEntry(id), B.Entry(TOKEN, StrNode(token)), B.Entry(VALUES, B.List(StrNodes(values)))]
    case ReplyNear(_, id, token, nodes) =>
      [IdEntry(id), B.Entry(TOKEN, StrNode(token)), B.Entry(NODES, StrNode(CompactNodeIds(nodes)))]
    case Announce(_, id, hash, port, token) =>
      [IdEntry(id), B.Entry(INFO_HASH, StrNode(IdText(hash))), B.Entry(PORT, B.Int(port)),
       B.Entry(TOKEN, StrNode(token))]
    case ReplyAnnounce(_, id) => [IdEntry(id)]
    case Connect(_, id, kind, src, dest, mode, param, status) =>
      [IdEntry(id), B.Entry(SRC, StrNode(CompactNodeId(src))), B.Entry(DEST, StrNode(CompactNodeId(dest))),
       B.Entry(MODE, B.Int(mode)), B.Entry(PARAM, B.Int(param)), B.Entry(STATUS, B.Int(status)),
       B.Entry(TYPE, B.Int(kind))]
  }

  predicate IsQuery(m: Msg) {
    m.Ping? || m.FindNode? || m.GetPeers? || m.Announce? || m.Connect?
  }

  /** The word that names a query. */
  function Command(m: Msg): Text {
    match m
    case Ping(_, _, _) => PING
    case FindNode(_, _, _, _) => FIND_NODE
    case GetPeers(_, _, _) => GET_PEERS
    case Announce(_, _, _, _, _) => ANNOUNCE
    case Connect(_, _, _, _, _, _, _, _) => CONNECT
    case Pong(_, _, _) => []
    case ReplyNode(_, _, _) => []
    case ReplyHash(_, _, _, _) => []
    case ReplyNear(_, _, _, _) => []
    case ReplyAnnounce(_, _) => []
  }

  /** The outer dictionary; its entries come in the order in which the builders add them. */
  function Entries(m: Msg): seq<B.Entry> {
    var data := B.Dict(Data(m));
    var t := B.Entry(T, StrNode(m.tid));
    var q := B.Entry(Q, StrNode(Command(m)));
    match m
    case Ping(_, _, version) =>
      [B.Entry(A, data), q, t, B.Entry(Y, StrNode(Q))]
      + if version.Some? then [B.Entry(V, StrNode(version.value))] else []
    case Pong(_, _, vid) => [B.Entry(R, data), t, B.Entry(Y, StrNode(R)), B.Entry(V, StrNode(vid))]
    case FindNode(_, _, _, local) =>
      [B.Entry(A, data), t, B.Entry(Y, StrNode(Q)), q] + if local then [B.Entry(E_O, StrNode(E_L))] else []
    case GetPeers(_, _, _) => [B.Entry(A, data), t, B.Entry(Y, StrNode(Q)), q]
    case Announce(_, _, _, _, _) => [B.Entry(A, data), q, t, B.Entry(Y, StrNode(Q))]
    case Connect(_, _, _, _, _, _, _, _) => [B.Entry(A, data), t, B.Entry(Y, StrNode(Q)), q]
    case ReplyNode(_, _, _) => [t, B.Entry(Y, StrNode(R)), B.Entry(R, data)]
    case ReplyHash(_, _, _, _) => [t, B.Entry(Y, StrNode(R)), B.Entry(R, data)]
    case ReplyNear(_, _, _, _) => [t, B.Entry(Y, StrNode(R)), B.Entry(R, data)]
    case ReplyAnnounce(_, _) => [B.Entry(R, data), t, B.Entry(Y, StrNode(R))]
  }

  function Build(m: Msg): Node {
    B.Dict(Entries(m))
  }

  // --------------------------------------------------------------- classifying

  datatype MsgType = Unknown | PingType | PongType | FindNodeType | ReplyNodeType | GetHashType | ReplyHashType
                   | ReplyNearType | PostHashType | ConnectType

  datatype YType = UnknownY | QueryY | ReplyY

  /** The value of the first entry whose key, as a C string, is `key`. */
  function Lookup(entries: seq<B.Entry>, key: Text): Option<Node> {
    if entries == [] then None
    else if B.CString(entries[0].key) == key then Some(entries[0].val)
    else Lookup(entries[1..], key)
  }

  function GetDictNode(n: Node, key: Text): Option<Node> {
    if n.Dict? then Lookup(n.entries, key) else None
  }

  predicate MatchString(n: Node, word: Text) {
    n.Str? && (if n.str.Some? then n.str.value else []) == word
  }

  /** The kind entry, where it is a string, holds one: the reader looks at its first byte. */
  predicate KindReadable(n: Node) {
    var y := GetDictNode(n, Y);
    y.Some? && y.value.Str? ==> y.value.str.Some?
  }

  function GetY(n: Node): YType
    requires KindReadable(n)
  {
    var y := GetDictNode(n, Y);
    if y.None? || !y.value.Str? then UnknownY
    else
      var s := y.value.str.value;
      if s == [] then UnknownY else if s[0] == Q[0] then QueryY else if s[0] == R[0] then ReplyY else UnknownY
  }

  function TypeOf(n: Node): MsgType
    requires KindReadable(n)
  {
    match GetY(n)
    case UnknownY => Unknown
    case QueryY => QueryTypeOf(n)
    case ReplyY => ReplyTypeOf(n)
  }

  function QueryTypeOf(n: Node): MsgType {
    var query := GetDictNode(n, Q);
    if query.None? then Unknown
    else if MatchString(query.value, PING) then PingType
    else if MatchString(query.value, FIND_NODE) then FindNodeType
    else if MatchString(query.value, GET_PEERS) then GetHashType
    else if MatchString(query.value, ANNOUNCE) then PostHashType
    else if MatchString(query.value, CONNECT) then ConnectType
    else Unknown
  }

  function ReplyTypeOf(n: Node): MsgType {
    var reply := GetDictNode(n, R);
    if reply.None? then Unknown
    else
      var token, nodes := GetDictNode(reply.value, TOKEN).Some?, GetDictNode(reply.value, NODES).Some?;
      if GetDictNode(reply.value, ID).None? then Unknown
      else if token && GetDictNode(reply.value, VALUES).Some? then ReplyHashType
      else if token && nodes then ReplyNearType
      else if nodes then ReplyNodeType
      else PongType
  }

  // -------------------------------------------------------------------- reading

  function GetToken(n: Node): Option<Token> {
    if !n.Str? then None
    else
      var s := if n.str.Some? then n.str.value else [];
      if |s| > TOKEN_MAX_LEN then None else (var token: Token := s; Some(token))
  }

  function GetNodeId(n: Node): Option<NodeId> {
    if n.Str? && n.str.Some? && |n.str.value| == KEY_LEN then Some(IdOf(n.str.value)) else None
  }

  function GetNodes(n: Node): Option<seq<BdId>> {
    if !n.Str? then None else Some(NodeIdsOf(if n.str.Some? then n.str.value else []))
  }

  function GetBdId(n: Node): Option<BdId> {
    if n.Str? && n.str.Some? && |n.str.value| >= COMPACT_NODE_ID_LEN
    then Some(DecodeCompactNodeId(n.str.value)) else None
  }

  /** Stored into an unsigned 32-bit word. */
  function GetUInt32(n: Node): Option<nat> {
    if n.Int? then Some(n.num % 0x1_0000_0000) else None
  }

  /** An unsigned word handed on as a signed one. */
  function AsInt(u: nat): Int32
    requires u < 0x1_0000_0000
  {
    if u < 0x8000_0000 then u else u - 0x1_0000_0000
  }

  function GetStrings(items: seq<Node>): seq<Text> {
    if items == [] || !items[0].Str? then []
    else [if items[0].str.Some? then items[0].str.value else []] + GetStrings(items[1..])
  }

  function GetValues(n: Node): Option<seq<Text>> {
    if n.List? then Some(GetStrings(n.items)) else None
  }

  /** The fields of a connect message; a field of the wrong type is not read. */
  datatype Conn = Conn(src: Option<BdId>, dest: Option<BdId>, mode: Option<Int32>, param: Int32,
                       status: Option<Int32>, kind: Option<Int32>)

  datatype Received = Received(
    mtype: MsgType, tid: Token, id: Option<NodeId>, version: Option<Token>, localnet: bool,
    target: Option<NodeId>, nodes: seq<BdId>, values: seq<Text>, port: Option<nat>, conn: Option<Conn>)

  function GetInt(n: Node): Option<Int32> {
    var u := GetUInt32(n);
    if u.None? then None else Some(AsInt(u.value))
  }

  /** Which key of the data names what is searched for. */
  function TargetKey(t: MsgType): Option<Text> {
    if t == FindNodeType then Some(TARGET) else if t == GetHashType || t == PostHashType then Some(INFO_HASH) else None
  }

  /** Without one of these entries a message of the type is dropped. */
  predicate Complete(t: MsgType, data: Node) {
    && GetDictNode(data, ID).Some?
    && (TargetKey(t).Some? ==> GetDictNode(data, TargetKey(t).value).Some?)
    && (t == ReplyNodeType || t == ReplyNearType ==> GetDictNode(data, NODES).Some?)
    && (t == ReplyHashType ==> GetDictNode(data, VALUES).Some?)
    && (t == ReplyHashType || t == ReplyNearType || t == PostHashType ==> GetDictNode(data, TOKEN).Some?)
    && (t == PostHashType ==> GetDictNode(data, PORT).Some?)
    && (t == ConnectType ==>
        && GetDictNode(data, SRC).Some? && GetDictNode(data, DEST).Some? && GetDictNode(data, MODE).Some?
        && GetDictNode(data, PARAM).Some? && GetDictNode(data, STATUS).Some? && GetDictNode(data, TYPE).Some?)
  }

  function ReadConn(data: Node): Conn
    requires Complete(ConnectType, data)
  {
    var param := GetInt(GetDictNode(data, PARAM).value);
    Conn(GetBdId(GetDictNode(data, SRC).value), GetBdId(GetDictNode(data, DEST).value),
         GetInt(GetDictNode(data, MODE).value), if param.Some? then param.value else 0,
         GetInt(GetDictNode(data, STATUS).value), GetInt(GetDictNode(data, TYPE).value))
  }

  /** The fields as they are read from the data of a message; a write token is required but not read. */
  function ReadData(t: MsgType, tid: Token, version: Option<Token>, localnet: bool, data: Node): Received
    requires Complete(t, data)
  {
    var nodes := if t == ReplyNodeType || t == ReplyNearType then GetNodes(GetDictNode(data, NODES).value) else None;
    var values := if t == ReplyHashType then GetValues(GetDictNode(data, VALUES).value) else None;
    Received(t, tid, GetNodeId(GetDictNode(data, ID).value), version, localnet,
             if TargetKey(t).Some? then GetNodeId(GetDictNode(data, TargetKey(t).value).value) else None,
             if nodes.Some? then nodes.value else [], if values.Some? then values.value else [],
             if t == PostHashType then GetUInt32(GetDictNode(data, PORT).value) else None,
             if t == ConnectType then Some(ReadConn(data)) else None)
  }

  function TokenOr(n: Node, or: Token): Token {
    var t := GetToken(n);
    if t.Some? then t.value else or
  }

  /** What the receiver makes of a decoded packet, if it does not drop it. */
  function Receive(n: Node): Option<Received>
    requires KindReadable(n)
  {
    var t := TypeOf(n);
    var tid := GetDictNode(n, T);
    var data := GetDictNode(n, if GetY(n) == QueryY then A else R);
    if t == Unknown || tid.None? || data.None? || !Complete(t, data.value) then None
    else
      var v := if t == PongType || t == PingType then GetDictNode(n, V) else None;
      Some(ReadData(t, TokenOr(tid.value, []), if v.Some? then Some(TokenOr(v.value, [])) else None,
                      GetDictNode(n, E_O).Some?, data.value))
  }
}
