/** The builders, which put a message together entry by entry. */
module MessageBuilders {
  import opened Collections
  import opened Ids
  import opened Messages
  import opened MessageRoundTrip
  import B = Bencode
  import P = BencodeRoundTrip

  /** An added entry is found under its key unless an earlier one has that key; every other look-up stays as it was. */
  lemma {:induction false} LookupAdded(entries: seq<B.Entry>, e: B.Entry, key: Text)
    ensures Lookup(entries + [e], key)
            == if Lookup(entries, key).Some? then Lookup(entries, key)
               else if B.CString(e.key) == key then Some(e.val) else None
  {
    if entries != [] && B.CString(entries[0].key) != key {
      LookupAdded(entries[1..], e, key);
      assert (entries + [e])[1..] == entries[1..] + [e];
    } else if entries == [] {
      assert [e][1..] == [];
    }
  }

  /** Appends an entry behind the last one; only a dictionary takes one. */
  method AddKeypair(dict: B.Node, key: Text, node: B.Node) returns (r: B.Node, ok: bool)
    ensures ok == dict.Dict?
    ensures r == if ok then B.Dict(dict.entries + [B.Entry(B.CString(key), node)]) else dict
    ensures forall k :: GetDictNode(r, k) == if GetDictNode(dict, k).Some? || !ok || B.CString(key) != k
                                             then GetDictNode(dict, k) else Some(node)
  {
    if !dict.Dict? {
      return dict, false;
    }
    var e := B.Entry(B.CString(key), node);
    r, ok := B.Dict(dict.entries + [e]), true;
    forall k
      ensures Lookup(r.entries, k) == if Lookup(dict.entries, k).Some? || B.CString(key) != k
                                      then Lookup(dict.entries, k) else Some(node)
    {
      LookupAdded(dict.entries, e, k);
      P.CStringWhole(B.CString(key));
    }
  }

  /** Appends an item behind the last one; only a list takes one. */
  method AddList(list: B.Node, node: B.Node) returns (r: B.Node, ok: bool)
    ensures ok == list.List?
    ensures r == if ok then B.List(list.items + [node]) else list
  {
    if !list.List? {
      return list, false;
    }
    r, ok := B.List(list.items + [node]), true;
  }

  /** Adds an entry whose key is one of the protocol's. */
  method Add(dict: B.Node, key: Text, node: B.Node) returns (r: B.Node)
    requires dict.Dict? && B.NUL !in key
    ensures r == B.Dict(dict.entries + [B.Entry(key, node)])
  {
    P.CStringWhole(key);
    var ok;
    r, ok := AddKeypair(dict, key, node);
  }

  /** The dictionary that every message carries inside, with the id of its sender. */
  method IdDict(id: NodeId) returns (r: B.Node)
    ensures r == B.Dict([IdEntry(id)])
  {
    KeysPlain();
    r := Add(B.Dict([]), ID, StrNode(IdText(id)));
  }

  method PingMsg(tid: Token, id: NodeId, vid: Option<Token>) returns (dict: B.Node)
    ensures dict == Build(Ping(tid, id, vid))
    ensures KindReadable(dict) && Receive(dict) == Some(Expected(Ping(tid, id, vid)))
  {
    hide Receive, Expected, KindReadable;
    KeysPlain();
    var iddict := IdDict(id);
    dict := Add(B.Dict([]), A, iddict);
    dict := Add(dict, Q, StrNode(PING));
    dict := Add(dict, T, StrNode(tid));
    dict := Add(dict, Y, StrNode(Q));
    if vid.Some? {
      dict := Add(dict, V, StrNode(vid.value));
    }
    var m := Ping(tid, id, vid);
    FieldsBack(m);
  }

  method ResponsePingMsg(tid: Token, id: NodeId, vid: Token) returns (dict: B.Node)
    ensures dict == Build(Pong(tid, id, vid))
    ensures KindReadable(dict) && Receive(dict) == Some(Expected(Pong(tid, id, vid)))
  {
    hide Receive, Expected, KindReadable;
    KeysPlain();
    var iddict := IdDict(id);
    dict := Add(B.Dict([]), R, iddict);
    dict := Add(dict, T, StrNode(tid));
    dict := Add(dict, Y, StrNode(R));
    dict := Add(dict, V, StrNode(vid));
    var m := Pong(tid, id, vid);
    FieldsBack(m);
  }

  method FindNodeMsg(tid: Token, id: NodeId, target: NodeId, local: bool) returns (dict: B.Node)
    ensures dict == Build(FindNode(tid, id, target, local))
    ensures KindReadable(dict) && Receive(dict) == Some(Expected(FindNode(tid, id, target, local)))
  {
    hide Receive, Expected, KindReadable;
    KeysPlain();
    var iddict := IdDict(id);
    iddict := Add(iddict, TARGET, StrNode(IdText(target)));
    assert iddict.entries == Data(FindNode(tid, id, target, local));
    dict := Add(B.Dict([]), A, iddict);
    dict := Add(dict, T, StrNode(tid));
    dict := Add(dict, Y, StrNode(Q));
    dict := Add(dict, Q, StrNode(FIND_NODE));
    if local {
      dict := Add(dict, E_O, StrNode(E_L));
    }
    var m := FindNode(tid, id, target, local);
    FieldsBack(m);
  }

  method RespNodeMsg(tid: Token, id: NodeId, nodes: seq<BdId>) returns (dict: B.Node)
    ensures dict == Build(ReplyNode(tid, id, nodes))
    ensures KindReadable(dict) && Receive(dict) == Some(Expected(ReplyNode(tid, id, nodes)))
  {
    hide Receive, Expected, KindReadable;
    KeysPlain();
    var peersnode := MakeCompactNodeIdString(nodes);
    var replydict := IdDict(id);
    replydict := Add(replydict, NODES, peersnode);
    assert replydict.entries == Data(ReplyNode(tid, id, nodes));
    dict := Add(B.Dict([]), T, StrNode(tid));
    dict := Add(dict, Y, StrNode(R));
    dict := Add(dict, R, replydict);
    var m := ReplyNode(tid, id, nodes);
    FieldsBack(m);
  }

  method GetPeersMsg(tid: Token, id: NodeId, hash: NodeId) returns (dict: B.Node)
    ensures dict == Build(GetPeers(tid, id, hash))
    ensures KindReadable(dict) && Receive(dict) == Some(Expected(GetPeers(tid, id, hash)))
  {
    hide Receive, Expected, KindReadable;
    KeysPlain();
    var iddict := IdDict(id);
    iddict := Add(iddict, INFO_HASH, StrNode(IdText(hash)));
    assert iddict.entries == Data(GetPeers(tid, id, hash));
    dict := Add(B.Dict([]), A, iddict);
    dict := Add(dict, T, StrNode(tid));
    dict := Add(dict, Y, StrNode(Q));
    dict := Add(dict, Q, StrNode(GET_PEERS));
    var m := GetPeers(tid, id, hash);
    FieldsBack(m);
  }

  method PeersReplyHashMsg(tid: Token, id: NodeId, token: Token, values: seq<Text>) returns (dict: B.Node)
    ensures dict == Build(ReplyHash(tid, id, token, values))
    ensures KindReadable(dict) && Receive(dict) == Some(Expected(ReplyHash(tid, id, token, values)))
    ensures TokenIn(dict) == Some(token)
  {
    hide Receive, Expected, KindReadable, TokenIn;
    KeysPlain();
    var valuesnode := MakeCompactPeerIds(values);
    var replydict := IdDict(id);
    replydict := Add(replydict, TOKEN, StrNode(token));
    replydict := Add(replydict, VALUES, valuesnode);
    assert replydict.entries == Data(ReplyHash(tid, id, token, values));
    dict := Add(B.Dict([]), T, StrNode(tid));
    dict := Add(dict, Y, StrNode(R));
    dict := Add(dict, R, replydict);
    var m := ReplyHash(tid, id, token, values);
    FieldsBack(m);
    TokenBackInTree(m);
  }

  method PeersReplyClosestMsg(tid: Token, id: NodeId, token: Token, nodes: seq<BdId>) returns (dict: B.Node)
    ensures dict == Build(ReplyNear(tid, id, token, nodes))
    ensures KindReadable(dict) && Receive(dict) == Some(Expected(ReplyNear(tid, id, token, nodes)))
    ensures TokenIn(dict) == Some(token)
  {
    hide Receive, Expected, KindReadable, TokenIn;
    KeysPlain();
    var peersnode := MakeCompactNodeIdString(nodes);
    var replydict := IdDict(id);
    replydict := Add(replydict, TOKEN, StrNode(token));
    replydict := Add(replydict, NODES, peersnode);
    assert replydict.entries == Data(ReplyNear(tid, id, token, nodes));
    dict := Add(B.Dict([]), T, StrNode(tid));
    dict := Add(dict, Y, StrNode(R));
    dict := Add(dict, R, replydict);
    var m := ReplyNear(tid, id, token, nodes);
    FieldsBack(m);
    TokenBackInTree(m);
  }

  method AnnouncePeersMsg(tid: Token, id: NodeId, hash: NodeId, port: nat, token: Token) returns (dict: B.Node)
    ensures dict == Build(Announce(tid, id, hash, port, token))
    ensures KindReadable(dict)
    ensures port < 0x1_0000_0000 ==> Receive(dict) == Some(Expected(Announce(tid, id, hash, port, token)))
    ensures TokenIn(dict) == Some(token)
  {
    hide Receive, Expected, KindReadable, TokenIn;
    KeysPlain();
    var iddict := IdDict(id);
    iddict := Add(iddict, INFO_HASH, StrNode(IdText(hash)));
    iddict := Add(iddict, PORT, B.Int(port));
    iddict := Add(iddict, TOKEN, StrNode(token));
    assert iddict.entries == Data(Announce(tid, id, hash, port, token));
    dict := Add(B.Dict([]), A, iddict);
    dict := Add(dict, Q, StrNode(ANNOUNCE));
    dict := Add(dict, T, StrNode(tid));
    dict := Add(dict, Y, StrNode(Q));
    var m := Announce(tid, id, hash, port, token);
    KindOf(m);
    if port < 0x1_0000_0000 {
      FieldsBack(m);
    }
    TokenBackInTree(m);
  }

  method ReplyAnnounceMsg(tid: Token, id: NodeId) returns (dict: B.Node)
    ensures dict == Build(ReplyAnnounce(tid, id))
    ensures KindReadable(dict) && Receive(dict) == Some(Expected(ReplyAnnounce(tid, id)))
  {
    hide Receive, Expected, KindReadable;
    KeysPlain();
    var iddict := IdDict(id);
    dict := Add(B.Dict([]), R, iddict);
    dict := Add(dict, T, StrNode(tid));
    dict := Add(dict, Y, StrNode(R));
    var m := ReplyAnnounce(tid, id);
    FieldsBack(m);
  }

  method ConnectGenmsg(tid: Token, id: NodeId, kind: Int32, src: BdId, dest: BdId, mode: Int32, param: Int32,
                       status: Int32)
    returns (dict: B.Node)
    ensures dict == Build(Connect(tid, id, kind, src, dest, mode, param, status))
    ensures KindReadable(dict)
    ensures Receive(dict) == Some(Expected(Connect(tid, id, kind, src, dest, mode, param, status)))
  {
    hide Receive, Expected, KindReadable;
    KeysPlain();
    var iddict := IdDict(id);
    iddict := Add(iddict, SRC, StrNode(CompactNodeId(src)));
    iddict := Add(iddict, DEST, StrNode(CompactNodeId(dest)));
    iddict := Add(iddict, MODE, B.Int(mode));
    iddict := Add(iddict, PARAM, B.Int(param));
    iddict := Add(iddict, STATUS, B.Int(status));
    iddict := Add(iddict, TYPE, B.Int(kind));
    assert iddict.entries == Data(Connect(tid, id, kind, src, dest, mode, param, status));
    dict := Add(B.Dict([]), A, iddict);
    dict := Add(dict, T, StrNode(tid));
    dict := Add(dict, Y, StrNode(Q));
    dict := Add(dict, Q, StrNode(CONNECT));
    var m := Connect(tid, id, kind, src, dest, mode, param, status);
    FieldsBack(m);
  }

  // ------------------------------------------------------------- message loops

  method MakeCompactPeerIds(values: seq<Text>) returns (node: B.Node)
    ensures node == B.List(StrNodes(values))
    ensures GetValues(node) == Some(values)
  {
    node := B.List([]);
    for i := 0 to |values|
      invariant node == B.List(StrNodes(values[..i]))
    {
      var ok;
      node, ok := AddList(node, StrNode(values[i]));
      assert StrNodes(values[..i + 1]) == StrNodes(values[..i]) + [StrNode(values[i])];
    }
    assert values[..|values|] == values;
    StringsBack(values);
  }

  method MakeCompactNodeIdString(nodes: seq<BdId>) returns (node: B.Node)
    ensures node == StrNode(CompactNodeIds(nodes))
    ensures GetNodes(node) == Some(nodes)
  {
    var cni: Text := [];
    for i := 0 to |nodes|
      invariant cni == CompactNodeIds(nodes[..i])
    {
      assert nodes[..i + 1][..i] == nodes[..i];
      cni := cni + CompactNodeId(nodes[i]);
    }
    assert nodes[..|nodes|] == nodes;
    CompactIdsBack(nodes);
    node := StrNode(cni);
  }

  /** Reads as many ids as the string holds whole. */
  method BeMsgGetListBdIds(n: B.Node) returns (nodes: Option<seq<BdId>>)
    ensures nodes == GetNodes(n)
  {
    if !n.Str? {
      return None;
    }
    var s := if n.str.Some? then n.str.value else [];
    var count := |s| / COMPACT_NODE_ID_LEN;
    var list: seq<BdId> := [];
    for i := 0 to count
      invariant COMPACT_NODE_ID_LEN * i <= |s|
      invariant list + NodeIdsOf(s[COMPACT_NODE_ID_LEN * i..]) == NodeIdsOf(s)
    {
      var at := COMPACT_NODE_ID_LEN * i;
      assert s[at..][COMPACT_NODE_ID_LEN..] == s[at + COMPACT_NODE_ID_LEN..];
      list := list + [DecodeCompactNodeId(s[at..])];
    }
    nodes := Some(list);
    assert list + [] == list;
  }

  method BeMsgGetDictNode(n: B.Node, key: Text) returns (val: Option<B.Node>)
    ensures val == GetDictNode(n, key)
  {
    if !n.Dict? {
      return None;
    }
    var i := 0;
    while i < |n.entries|
      invariant 0 <= i <= |n.entries| && Lookup(n.entries, key) == Lookup(n.entries[i..], key)
    {
      if B.CString(n.entries[i].key) == key {
        return Some(n.entries[i].val);
      }
      i := i + 1;
    }
    return None;
  }

  method BeMsgMatchString(n: B.Node, word: Text) returns (same: bool)
    ensures same == MatchString(n, word)
  {
    if !n.Str? {
      return false;
    }
    var s := if n.str.Some? then n.str.value else [];
    if |word| != |s| {
      return false;
    }
    for i := 0 to |word|
      invariant s[..i] == word[..i]
    {
      if s[i] != word[i] {
        return false;
      }
    }
    assert s[..|s|] == s && word[..|word|] == word;
    return true;
  }
}
