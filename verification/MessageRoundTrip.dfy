/** Every message decodes to what was built, is classified as intended and reads back unchanged. */
module MessageRoundTrip {
  import opened Collections
  import opened Ids
  import opened Messages
  import B = Bencode
  import P = BencodeRoundTrip

  // ------------------------------------------------------------- compact forms

  lemma RawOfByteOf(b: bv8)
    ensures RawOf(ByteOf(b)) == b
  {
  }

  lemma IdTextBack(id: NodeId, rest: Text)
    ensures IdOf(IdText(id) + rest) == id
  {
    forall i | 0 <= i < KEY_LEN
      ensures IdOf(IdText(id) + rest).data[i] == id.data[i]
    {
      RawOfByteOf(id.data[i]);
    }
  }

  lemma AddrTextBack(a: Addr, rest: Text)
    ensures AddrOf(AddrText(a) + rest) == a
  {
    RawOfByteOf(a.ip.a);
    RawOfByteOf(a.ip.b);
    RawOfByteOf(a.ip.c);
    RawOfByteOf(a.ip.d);
    RawOfByteOf(a.port.hi);
    RawOfByteOf(a.port.lo);
  }

  lemma CompactBack(id: BdId, rest: Text)
    ensures DecodeCompactNodeId(CompactNodeId(id) + rest) == id
  {
    var t := CompactNodeId(id) + rest;
    assert t == IdText(id.id) + (AddrText(id.addr) + rest);
    IdTextBack(id.id, AddrText(id.addr) + rest);
    assert t[KEY_LEN..] == AddrText(id.addr) + rest;
    AddrTextBack(id.addr, rest);
  }

  lemma {:induction false} CompactFirst(ids: seq<BdId>)
    requires ids != []
    ensures CompactNodeIds(ids) == CompactNodeId(ids[0]) + CompactNodeIds(ids[1..])
  {
    var n := |ids| - 1;
    if n > 0 {
      CompactFirst(ids[..n]);
      assert ids[..n][1..] == ids[1..][..n - 1];
    }
  }

  /** The list of compact ids reads back as the list of ids, in order. */
  lemma {:induction false} CompactIdsBack(ids: seq<BdId>)
    ensures NodeIdsOf(CompactNodeIds(ids)) == ids
  {
    if ids != [] {
      CompactFirst(ids);
      CompactBack(ids[0], CompactNodeIds(ids[1..]));
      CompactIdsBack(ids[1..]);
      assert CompactNodeIds(ids)[COMPACT_NODE_ID_LEN..] == CompactNodeIds(ids[1..]);
    }
  }

  lemma SignedBack(i: Int32)
    ensures AsInt(i % 0x1_0000_0000) == i
  {
  }

  lemma {:induction false} StringsBack(values: seq<Text>)
    ensures GetStrings(StrNodes(values)) == values
  {
    if values != [] {
      StringsBack(values[1..]);
      assert StrNodes(values)[1..] == StrNodes(values[1..]);
    }
  }

  // ------------------------------------------------------------------- look-up

  /** All keys are C strings. */
  predicate PlainKeys(entries: seq<B.Entry>) {
    forall i :: 0 <= i < |entries| ==> B.NUL !in entries[i].key
  }

  lemma {:induction false} LookupAt(entries: seq<B.Entry>, key: Text, i: nat)
    requires PlainKeys(entries) && i < |entries| && entries[i].key == key
    requires forall j :: 0 <= j < i ==> entries[j].key != key
    ensures Lookup(entries, key) == Some(entries[i].val)
  {
    P.CStringWhole(entries[0].key);
    if i > 0 {
      LookupAt(entries[1..], key, i - 1);
    }
  }

  lemma {:induction false} LookupNone(entries: seq<B.Entry>, key: Text)
    requires PlainKeys(entries) && forall j :: 0 <= j < |entries| ==> entries[j].key != key
    ensures Lookup(entries, key) == None
  {
    if entries != [] {
      P.CStringWhole(entries[0].key);
      LookupNone(entries[1..], key);
    }
  }

  lemma KeysPlain()
    ensures B.NUL !in A && B.NUL !in E_O && B.NUL !in Q && B.NUL !in R && B.NUL !in T && B.NUL !in V && B.NUL !in Y
    ensures B.NUL !in ID && B.NUL !in SRC && B.NUL !in DEST && B.NUL !in MODE && B.NUL !in PORT && B.NUL !in TYPE
    ensures B.NUL !in NODES && B.NUL !in PARAM && B.NUL !in TOKEN && B.NUL !in STATUS && B.NUL !in TARGET
    ensures B.NUL !in VALUES && B.NUL !in INFO_HASH
  {
  }

  lemma DataPlain(m: Msg)
    ensures PlainKeys(Data(m))
  {
    KeysPlain();
  }

  lemma EntriesPlain(m: Msg)
    ensures PlainKeys(Entries(m))
  {
    KeysPlain();
  }

  // What the outer dictionary holds.

  lemma OuterKind(m: Msg)
    ensures Lookup(Entries(m), Y) == Some(StrNode(if IsQuery(m) then Q else R))
  {
    EntriesPlain(m);
    var es := Entries(m);
    LookupAt(es, Y,
             if m.Ping? || m.Announce? then 3 else if m.ReplyNode? || m.ReplyHash? || m.ReplyNear? then 1 else 2);
  }

  lemma OuterTid(m: Msg)
    ensures Lookup(Entries(m), T) == Some(StrNode(m.tid))
  {
    EntriesPlain(m);
    var es := Entries(m);
    LookupAt(es, T,
             if m.Ping? || m.Announce? then 2 else if m.ReplyNode? || m.ReplyHash? || m.ReplyNear? then 0 else 1);
  }

  lemma OuterData(m: Msg)
    ensures Lookup(Entries(m), if IsQuery(m) then A else R) == Some(B.Dict(Data(m)))
  {
    EntriesPlain(m);
    LookupAt(Entries(m), if IsQuery(m) then A else R, if m.ReplyNode? || m.ReplyHash? || m.ReplyNear? then 2 else 0);
  }

  lemma OuterCommand(m: Msg)
    requires IsQuery(m)
    ensures Lookup(Entries(m), Q) == Some(StrNode(Command(m)))
  {
    EntriesPlain(m);
    LookupAt(Entries(m), Q, if m.Ping? || m.Announce? then 1 else 3);
  }

  /** The version of a ping or pong is optional. */
  lemma OuterVersion(m: Msg)
    ensures Lookup(Entries(m), V)
            == if m.Ping? && m.version.Some? then Some(StrNode(m.version.value))
               else if m.Pong? then Some(StrNode(m.vid)) else None
  {
    EntriesPlain(m);
    var es := Entries(m);
    if m.Ping? && m.version.Some? {
      LookupAt(es, V, 4);
    } else if m.Pong? {
      LookupAt(es, V, 3);
    } else {
      LookupNone(es, V);
    }
  }

  /** So is the local option of a search. */
  lemma OuterLocal(m: Msg)
    ensures Lookup(Entries(m), E_O) == if m.FindNode? && m.local then Some(StrNode(E_L)) else None
  {
    EntriesPlain(m);
    var es := Entries(m);
    if m.FindNode? && m.local {
      LookupAt(es, E_O, 4);
    } else {
      LookupNone(es, E_O);
    }
  }

  // ------------------------------------------------------------- classification

  /** What the receiver takes a message for; the reply to an announcement reads as a pong by design. */
  function Intended(m: Msg): MsgType {
    match m
    case Ping(_, _, _) => PingType
    case Pong(_, _, _) => PongType
    case FindNode(_, _, _, _) => FindNodeType
    case ReplyNode(_, _, _) => ReplyNodeType
    case GetPeers(_, _, _) => GetHashType
    case ReplyHash(_, _, _, _) => ReplyHashType
    case ReplyNear(_, _, _, _) => ReplyNearType
    case Announce(_, _, _, _, _) => PostHashType
    case ReplyAnnounce(_, _) => PongType
    case Connect(_, _, _, _, _, _, _, _) => ConnectType
  }

  lemma DataId(m: Msg)
    ensures Lookup(Data(m), ID) == Some(StrNode(IdText(m.id)))
  {
    DataPlain(m);
    LookupAt(Data(m), ID, 0);
  }

  /** The entries that tell the replies apart. */
  lemma ReplyShape(m: Msg)
    requires !IsQuery(m)
    ensures var d := Data(m);
            && (Lookup(d, TOKEN).Some? <==> m.ReplyHash? || m.ReplyNear?)
            && (Lookup(d, VALUES).Some? <==> m.ReplyHash?)
            && (Lookup(d, NODES).Some? <==> m.ReplyNode? || m.ReplyNear?)
  {
    hide Lookup;
    DataPlain(m);
    var d := Data(m);
    if m.ReplyHash? {
      LookupAt(d, TOKEN, 1);
      LookupAt(d, VALUES, 2);
      LookupNone(d, NODES);
    } else if m.ReplyNear? {
      LookupAt(d, TOKEN, 1);
      LookupAt(d, NODES, 2);
      LookupNone(d, VALUES);
    } else if m.ReplyNode? {
      LookupAt(d, NODES, 1);
      LookupNone(d, TOKEN);
      LookupNone(d, VALUES);
    } else {
      LookupNone(d, TOKEN);
      LookupNone(d, VALUES);
      LookupNone(d, NODES);
    }
  }

  lemma WordsDiffer()
    ensures PING != FIND_NODE && PING != GET_PEERS && PING != ANNOUNCE && PING != CONNECT && FIND_NODE != ANNOUNCE
    ensures FIND_NODE != GET_PEERS && FIND_NODE != CONNECT && GET_PEERS != ANNOUNCE && GET_PEERS != CONNECT
    ensures ANNOUNCE != CONNECT
  {
    assert FIND_NODE[0] != GET_PEERS[0];
  }

  lemma KindOf(m: Msg)
    ensures KindReadable(Build(m)) && GetY(Build(m)) == if IsQuery(m) then QueryY else ReplyY
  {
    OuterKind(m);
  }

  lemma QueryClassified(m: Msg)
    requires IsQuery(m)
    ensures QueryTypeOf(Build(m)) == Intended(m)
  {
    OuterCommand(m);
    WordsDiffer();
  }

  lemma ReplyClassified(m: Msg)
    requires !IsQuery(m)
    ensures ReplyTypeOf(Build(m)) == Intended(m)
  {
    OuterData(m);
    DataId(m);
    ReplyShape(m);
  }

  /** Every message is classified as intended. */
  lemma Classified(m: Msg)
    ensures KindReadable(Build(m)) && TypeOf(Build(m)) == Intended(m)
  {
    KindOf(m);
    if IsQuery(m) {
      QueryClassified(m);
    } else {
      ReplyClassified(m);
    }
  }

  // --------------------------------------------------------------- field values

  /** What the receiver is to read; write tokens are not among it. */
  function Expected(m: Msg): Received {
    Received(
      Intended(m), m.tid, Some(m.id),
      if m.Ping? then m.version else if m.Pong? then Some(m.vid) else None,
      m.FindNode? && m.local,
      if m.FindNode? then Some(m.target) else if m.GetPeers? || m.Announce? then Some(m.hash) else None,
      if m.ReplyNode? || m.ReplyNear? then m.nodes else [],
      if m.ReplyHash? then m.values else [],
      if m.Announce? then Some(m.port) else None,
      if m.Connect? then Some(Conn(Some(m.src), Some(m.dest), Some(m.mode), m.param, Some(m.status), Some(m.kind)))
      else None)
  }

  lemma NodeIdBack(id: NodeId)
    ensures GetNodeId(StrNode(IdText(id))) == Some(id)
  {
    IdTextBack(id, []);
    assert IdText(id) + [] == IdText(id);
  }

  lemma BdIdBack(id: BdId)
    ensures GetBdId(StrNode(CompactNodeId(id))) == Some(id)
  {
    CompactBack(id, []);
    assert CompactNodeId(id) + [] == CompactNodeId(id);
  }

  lemma IntBack(i: Int32)
    ensures GetInt(B.Int(i)) == Some(i)
  {
    SignedBack(i);
  }

  lemma ConnIds(m: Msg)
    requires m.Connect?
    ensures var data := B.Dict(Data(m));
            && GetDictNode(data, ID) == Some(StrNode(IdText(m.id)))
            && GetDictNode(data, SRC) == Some(StrNode(CompactNodeId(m.src)))
            && GetDictNode(data, DEST) == Some(StrNode(CompactNodeId(m.dest)))
  {
    DataPlain(m);
    var d := Data(m);
    LookupAt(d, ID, 0);
    LookupAt(d, SRC, 1);
    LookupAt(d, DEST, 2);
  }

  lemma ConnNumbers(m: Msg)
    requires m.Connect?
    ensures var data := B.Dict(Data(m));
            && GetDictNode(data, MODE) == Some(B.Int(m.mode)) && GetDictNode(data, PARAM) == Some(B.Int(m.param))
            && GetDictNode(data, STATUS) == Some(B.Int(m.status)) && GetDictNode(data, TYPE) == Some(B.Int(m.kind))
  {
    hide Lookup;
    DataPlain(m);
    var d := Data(m);
    LookupAt(d, MODE, 3);
    LookupAt(d, PARAM, 4);
    LookupAt(d, STATUS, 5);
    LookupAt(d, TYPE, 6);
  }

  lemma ConnOf(data: Node, src: BdId, dest: BdId, mode: Int32, param: Int32, status: Int32, kind: Int32)
    requires Complete(ConnectType, data)
    requires GetDictNode(data, SRC).value == StrNode(CompactNodeId(src))
    requires GetDictNode(data, DEST).value == StrNode(CompactNodeId(dest))
    requires GetDictNode(data, MODE).value == B.Int(mode) && GetDictNode(data, PARAM).value == B.Int(param)
    requires GetDictNode(data, STATUS).value == B.Int(status) && GetDictNode(data, TYPE).value == B.Int(kind)
    ensures ReadConn(data) == Conn(Some(src), Some(dest), Some(mode), param, Some(status), Some(kind))
  {
    BdIdBack(src);
    BdIdBack(dest);
    IntBack(mode);
    IntBack(param);
    IntBack(status);
    IntBack(kind);
  }

  lemma ConnComplete(data: Node)
    requires GetDictNode(data, ID).Some? && GetDictNode(data, SRC).Some? && GetDictNode(data, DEST).Some?
    requires GetDictNode(data, MODE).Some? && GetDictNode(data, PARAM).Some? && GetDictNode(data, STATUS).Some?
    requires GetDictNode(data, TYPE).Some?
    ensures Complete(ConnectType, data)
  {
  }

  /** The port, the only number of a message that is not signed, is an unsigned word. */
  predicate PortFits(m: Msg) {
    m.Announce? ==> m.port < 0x1_0000_0000
  }

  /** No string is too long for its length to be an int. */
  predicate Fits(m: Msg) {
    && PortFits(m)
    && (m.ReplyNode? || m.ReplyNear? ==> COMPACT_NODE_ID_LEN * |m.nodes| <= B.INT_MAX)
    && (m.ReplyHash? ==> forall i :: 0 <= i < |m.values| ==> |m.values[i]| <= B.INT_MAX)
  }

  /** A dictionary with an id and nothing else that its type calls for. */
  lemma SimpleBack(data: Node, t: MsgType, tid: Token, id: NodeId, version: Option<Token>, local: bool)
    requires t == PingType || t == PongType
    requires GetDictNode(data, ID) == Some(StrNode(IdText(id)))
    ensures Complete(t, data)
    ensures ReadData(t, tid, version, local, data)
            == Received(t, tid, Some(id), version, local, None, [], [], None, None)
  {
    NodeIdBack(id);
  }

  lemma SearchBack(data: Node, t: MsgType, tid: Token, id: NodeId, target: NodeId, version: Option<Token>,
                   local: bool)
    requires t == FindNodeType || t == GetHashType
    requires GetDictNode(data, ID) == Some(StrNode(IdText(id)))
    requires GetDictNode(data, TargetKey(t).value) == Some(StrNode(IdText(target)))
    ensures Complete(t, data)
    ensures ReadData(t, tid, version, local, data)
            == Received(t, tid, Some(id), version, local, Some(target), [], [], None, None)
  {
    NodeIdBack(id);
    NodeIdBack(target);
  }

  lemma AnnounceBack(data: Node, tid: Token, id: NodeId, hash: NodeId, port: nat, version: Option<Token>, local: bool)
    requires GetDictNode(data, ID) == Some(StrNode(IdText(id))) && GetDictNode(data, TOKEN).Some?
    requires GetDictNode(data, INFO_HASH) == Some(StrNode(IdText(hash)))
    requires GetDictNode(data, PORT) == Some(B.Int(port)) && port < 0x1_0000_0000
    ensures Complete(PostHashType, data)
    ensures ReadData(PostHashType, tid, version, local, data)
            == Received(PostHashType, tid, Some(id), version, local, Some(hash), [], [], Some(port), None)
  {
    NodeIdBack(id);
    NodeIdBack(hash);
  }

  lemma NodesBack(data: Node, t: MsgType, tid: Token, id: NodeId, nodes: seq<BdId>, version: Option<Token>,
                  local: bool)
    requires t == ReplyNodeType || t == ReplyNearType
    requires GetDictNode(data, ID) == Some(StrNode(IdText(id)))
    requires GetDictNode(data, NODES) == Some(StrNode(CompactNodeIds(nodes)))
    requires t == ReplyNearType ==> GetDictNode(data, TOKEN).Some?
    ensures Complete(t, data)
    ensures ReadData(t, tid, version, local, data)
            == Received(t, tid, Some(id), version, local, None, nodes, [], None, None)
  {
    NodeIdBack(id);
    CompactIdsBack(nodes);
  }

  lemma ValuesBack(data: Node, tid: Token, id: NodeId, values: seq<Text>, version: Option<Token>, local: bool)
    requires GetDictNode(data, ID) == Some(StrNode(IdText(id))) && GetDictNode(data, TOKEN).Some?
    requires GetDictNode(data, VALUES) == Some(B.List(StrNodes(values)))
    ensures Complete(ReplyHashType, data)
    ensures ReadData(ReplyHashType, tid, version, local, data)
            == Received(ReplyHashType, tid, Some(id), version, local, None, [], values, None, None)
  {
    NodeIdBack(id);
    StringsBack(values);
  }

  ghost predicate Reads(m: Msg, version: Option<Token>, local: bool) {
    var data := B.Dict(Data(m));
    && Complete(Intended(m), data)
    && ReadData(Intended(m), m.tid, version, local, data) == Expected(m).(version := version, localnet := local)
  }

  lemma QueryDataBack(m: Msg, version: Option<Token>, local: bool)
    requires m.Ping? || m.FindNode? || m.GetPeers?
    ensures Reads(m, version, local)
  {
    DataPlain(m);
    DataId(m);
    var d := Data(m);
    if m.Ping? {
      SimpleBack(B.Dict(d), PingType, m.tid, m.id, version, local);
    } else if m.FindNode? {
      LookupAt(d, TARGET, 1);
      SearchBack(B.Dict(d), FindNodeType, m.tid, m.id, m.target, version, local);
    } else {
      LookupAt(d, INFO_HASH, 1);
      SearchBack(B.Dict(d), GetHashType, m.tid, m.id, m.hash, version, local);
    }
  }

  lemma AnnounceDataBack(m: Msg, version: Option<Token>, local: bool)
    requires m.Announce? && PortFits(m)
    ensures Reads(m, version, local)
  {
    hide Lookup, ReadData, Complete;
    DataPlain(m);
    DataId(m);
    var d := Data(m);
    LookupAt(d, INFO_HASH, 1);
    LookupAt(d, PORT, 2);
    LookupAt(d, TOKEN, 3);
    AnnounceBack(B.Dict(d), m.tid, m.id, m.hash, m.port, version, local);
  }

  lemma ReplyDataBack(m: Msg, version: Option<Token>, local: bool)
    requires !IsQuery(m)
    ensures Reads(m, version, local)
  {
    hide Lookup, ReadData, Complete;
    DataPlain(m);
    DataId(m);
    var d := Data(m);
    if m.ReplyNode? {
      LookupAt(d, NODES, 1);
      NodesBack(B.Dict(d), ReplyNodeType, m.tid, m.id, m.nodes, version, local);
    } else if m.ReplyNear? {
      LookupAt(d, TOKEN, 1);
      LookupAt(d, NODES, 2);
      NodesBack(B.Dict(d), ReplyNearType, m.tid, m.id, m.nodes, version, local);
    } else if m.ReplyHash? {
      LookupAt(d, TOKEN, 1);
      LookupAt(d, VALUES, 2);
      ValuesBack(B.Dict(d), m.tid, m.id, m.values, version, local);
    } else {
      SimpleBack(B.Dict(d), PongType, m.tid, m.id, version, local);
    }
  }

  lemma ConnectBack(data: Node, tid: Token, id: NodeId, version: Option<Token>, local: bool)
    requires GetDictNode(data, ID) == Some(StrNode(IdText(id))) && Complete(ConnectType, data)
    ensures ReadData(ConnectType, tid, version, local, data)
            == Received(ConnectType, tid, Some(id), version, local, None, [], [], None, Some(ReadConn(data)))
  {
    NodeIdBack(id);
  }

  lemma ConnectDataBack(m: Msg, version: Option<Token>, local: bool)
    requires m.Connect?
    ensures Reads(m, version, local)
  {
    ConnIds(m);
    ConnNumbers(m);
    var data := B.Dict(Data(m));
    ConnComplete(data);
    ConnOf(data, m.src, m.dest, m.mode, m.param, m.status, m.kind);
    ConnectBack(data, m.tid, m.id, version, local);
  }

  lemma TokenBack(t: Token, or: Token)
    ensures TokenOr(StrNode(t), or) == t
  {
  }

  lemma ReceiveReads(n: Node, t: MsgType, tid: Token, data: Node, version: Option<Token>)
    requires KindReadable(n) && TypeOf(n) == t && t != Unknown
    requires GetDictNode(n, T) == Some(StrNode(tid))
    requires GetDictNode(n, if GetY(n) == QueryY then A else R) == Some(data) && Complete(t, data)
    requires t == PongType || t == PingType ==>
               GetDictNode(n, V) == if version.Some? then Some(StrNode(version.value)) else None
    requires t != PongType && t != PingType ==> version == None
    ensures Receive(n) == Some(ReadData(t, tid, version, GetDictNode(n, E_O).Some?, data))
  {
    TokenBack(tid, []);
    if version.Some? {
      TokenBack(version.value, []);
    }
  }

  lemma DataBack(m: Msg, version: Option<Token>, local: bool)
    requires PortFits(m)
    ensures Reads(m, version, local)
  {
    if m.Connect? {
      ConnectDataBack(m, version, local);
    } else if m.Announce? {
      AnnounceDataBack(m, version, local);
    } else if IsQuery(m) {
      QueryDataBack(m, version, local);
    } else {
      ReplyDataBack(m, version, local);
    }
  }

  /** What the receiver reads of a message is what was put in, but for write tokens, which it does not read. */
  lemma FieldsBack(m: Msg)
    requires PortFits(m)
    ensures KindReadable(Build(m)) && Receive(Build(m)) == Some(Expected(m))
  {
    Classified(m);
    KindOf(m);
    OuterTid(m);
    OuterData(m);
    OuterVersion(m);
    OuterLocal(m);
    DataBack(m, Expected(m).version, Expected(m).localnet);
    ReceiveReads(Build(m), Intended(m), m.tid, B.Dict(Data(m)), Expected(m).version);
  }

  // --------------------------------------------------------------- write tokens

  predicate HasToken(m: Msg) {
    m.ReplyHash? || m.ReplyNear? || m.Announce?
  }

  /** Nothing but the write token tells the two apart. */
  predicate SameButToken(m: Msg, w: Msg) {
    m == w || (HasToken(m) && HasToken(w) && m.(token := w.token) == w)
  }

  lemma ExpectedSameButToken(m: Msg, w: Msg)
    ensures Expected(m) == Expected(w) <==> SameButToken(m, w)
  {
  }

  /** The receiver tells two messages apart unless they differ in their write token alone. */
  lemma ReceivedSameButToken(m: Msg, w: Msg)
    requires PortFits(m) && PortFits(w)
    ensures KindReadable(Build(m)) && KindReadable(Build(w))
    ensures Receive(Build(m)) == Receive(Build(w)) <==> SameButToken(m, w)
  {
    FieldsBack(m);
    FieldsBack(w);
    ExpectedSameButToken(m, w);
  }

  /** The receiver makes the same of both messages. */
  predicate LooksLike(w: Msg, m: Msg) {
    && PortFits(w) && KindReadable(Build(w)) && KindReadable(Build(m))
    && Receive(Build(w)) == Receive(Build(m))
  }

  /** So exactly the kinds without a write token are determined by what is received. */
  lemma ReceivedDetermines(m: Msg)
    requires PortFits(m)
    ensures !HasToken(m) <==> forall w :: LooksLike(w, m) ==> w == m
  {
    if HasToken(m) {
      var other: Token := if m.token == [] then [0] else [];
      var w := m.(token := other);
      ReceivedSameButToken(w, m);
      assert LooksLike(w, m) && w != m;
    } else {
      forall w | LooksLike(w, m)
        ensures w == m
      {
        ReceivedSameButToken(w, m);
      }
    }
  }

  /** Two announcements that differ in nothing but the write token, one missing, are received as the same. */
  lemma TokenUnread(tid: Token, id: NodeId, hash: NodeId, port: nat)
    requires port < 0x1_0000_0000
    ensures var m, w := Announce(tid, id, hash, port, []), Announce(tid, id, hash, port, [0]);
            && m != w && KindReadable(Build(m)) && KindReadable(Build(w)) && Receive(Build(m)) == Receive(Build(w))
  {
    ReceivedSameButToken(Announce(tid, id, hash, port, []), Announce(tid, id, hash, port, [0]));
  }

  /** The write token as it stands in the tree, next to the fields that are read. */
  function TokenIn(n: Node): Option<Token>
    requires KindReadable(n)
  {
    var data := GetDictNode(n, if GetY(n) == QueryY then A else R);
    var token := if data.Some? then GetDictNode(data.value, TOKEN) else None;
    if token.Some? then GetToken(token.value) else None
  }

  lemma DataToken(m: Msg)
    ensures Lookup(Data(m), TOKEN) == if HasToken(m) then Some(StrNode(m.token)) else None
  {
    hide Lookup;
    DataPlain(m);
    var d := Data(m);
    if HasToken(m) {
      LookupAt(d, TOKEN, if m.Announce? then 3 else 1);
    } else {
      TokenKeyDiffers();
      LookupNone(d, TOKEN);
    }
  }

  lemma TokenKeyDiffers()
    ensures TOKEN != ID && TOKEN != TARGET && TOKEN != NODES && TOKEN != INFO_HASH && TOKEN != SRC && TOKEN != DEST
    ensures TOKEN != MODE && TOKEN != PARAM && TOKEN != STATUS && TOKEN != TYPE
  {
    assert TOKEN[0] != NODES[0] && TOKEN[0] != PARAM[0];
  }

  /** The token can be read back from the tree of every message that has one. */
  lemma TokenBackInTree(m: Msg)
    ensures KindReadable(Build(m)) && TokenIn(Build(m)) == if HasToken(m) then Some(m.token) else None
  {
    KindOf(m);
    OuterData(m);
    DataToken(m);
  }

  // ------------------------------------------------------------- over the wire

  /** A short key, and a value that fits. */
  predicate EntryOk(e: B.Entry) {
    |e.key| < 10 && B.NUL !in e.key && P.Sized(e.val) && P.Canonical(e.val)
  }

  lemma DictOk(entries: seq<B.Entry>)
    requires forall i :: 0 <= i < |entries| ==> EntryOk(entries[i])
    ensures P.Sized(B.Dict(entries)) && P.Canonical(B.Dict(entries))
  {
    forall i | 0 <= i < |entries|
      ensures |B.CString(entries[i].key)| <= B.INT_MAX && P.Sized(entries[i].val)
    {
      assert EntryOk(entries[i]);
    }
  }

  lemma StrOk(key: Text, t: Text)
    requires |key| < 10 && B.NUL !in key && |t| <= B.INT_MAX
    ensures EntryOk(B.Entry(key, StrNode(t)))
  {
  }

  lemma IntOk(key: Text, i: int)
    requires |key| < 10 && B.NUL !in key && -0x8000_0000 <= i < 0x1_0000_0000
    ensures EntryOk(B.Entry(key, B.Int(i)))
  {
  }

  lemma ListOk(key: Text, values: seq<Text>)
    requires |key| < 10 && B.NUL !in key && forall i :: 0 <= i < |values| ==> |values[i]| <= B.INT_MAX
    ensures EntryOk(B.Entry(key, B.List(StrNodes(values))))
  {
    forall i | 0 <= i < |values|
      ensures P.Sized(StrNodes(values)[i]) && P.Canonical(StrNodes(values)[i])
    {
    }
  }

  lemma SmallDataOk(m: Msg)
    requires Fits(m) && !m.Connect? && !m.Announce?
    ensures forall i :: 0 <= i < |Data(m)| ==> EntryOk(Data(m)[i])
  {
    KeysPlain();
    StrOk(ID, IdText(m.id));
    match m {
      case Ping(_, _, _) =>
      case Pong(_, _, _) =>
      case ReplyAnnounce(_, _) =>
      case FindNode(_, _, target, _) => StrOk(TARGET, IdText(target));
      case GetPeers(_, _, hash) => StrOk(INFO_HASH, IdText(hash));
      case ReplyNode(_, _, nodes) => StrOk(NODES, CompactNodeIds(nodes));
      case ReplyNear(_, _, token, nodes) => StrOk(TOKEN, token); StrOk(NODES, CompactNodeIds(nodes));
      case ReplyHash(_, _, token, values) => StrOk(TOKEN, token); ListOk(VALUES, values);
    }
  }

  lemma LargeDataOk(m: Msg)
    requires Fits(m) && (m.Connect? || m.Announce?)
    ensures forall i :: 0 <= i < |Data(m)| ==> EntryOk(Data(m)[i])
  {
    KeysPlain();
    StrOk(ID, IdText(m.id));
    if m.Announce? {
      StrOk(INFO_HASH, IdText(m.hash));
      IntOk(PORT, m.port);
      StrOk(TOKEN, m.token);
    } else {
      StrOk(SRC, CompactNodeId(m.src));
      StrOk(DEST, CompactNodeId(m.dest));
      IntOk(MODE, m.mode);
      IntOk(PARAM, m.param);
      IntOk(STATUS, m.status);
      IntOk(TYPE, m.kind);
    }
  }

  lemma OuterOk(m: Msg)
    requires P.Sized(B.Dict(Data(m))) && P.Canonical(B.Dict(Data(m)))
    ensures forall i :: 0 <= i < |Entries(m)| ==> EntryOk(Entries(m)[i])
  {
    KeysPlain();
    StrOk(T, m.tid);
    StrOk(Y, Q);
    StrOk(Y, R);
    StrOk(Q, Command(m));
    StrOk(E_O, E_L);
    if m.Ping? && m.version.Some? {
      StrOk(V, m.version.value);
    } else if m.Pong? {
      StrOk(V, m.vid);
    }
  }

  lemma BuildSized(m: Msg)
    requires Fits(m)
    ensures P.Sized(Build(m)) && P.Canonical(Build(m))
  {
    if m.Connect? || m.Announce? {
      LargeDataOk(m);
    } else {
      SmallDataOk(m);
    }
    DictOk(Data(m));
    OuterOk(m);
    DictOk(Entries(m));
  }

  /**
   * Over the wire: the packet of a message, whatever stands behind it in the
   * buffer, decodes to the tree that was built, and its fields are read back.
   */
  lemma PacketRoundTrip(m: Msg, rest: Text)
    requires Fits(m)
    ensures var packet := B.Encode(Build(m));
            var (tree, end) := B.DecodeAt(packet + rest + [B.NUL], 0);
            && tree == Some(Build(m)) && end == |packet|
            && KindReadable(tree.value) && Receive(tree.value) == Some(Expected(m))
  {
    BuildSized(m);
    P.RoundTrip(Build(m), rest);
    FieldsBack(m);
  }
}
