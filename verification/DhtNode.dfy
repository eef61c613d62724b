/** One node of the DHT: it answers the searches of others and hands out its packets. */
module DhtNode {
  import opened Collections
  import opened Ids
  import opened Messages
  import opened PacketSizes
  import opened RoutingSearch
  import B = Bencode
  import BencodeWriter
  import MessageBuilders
  import MessageRoundTrip
  import RoutingSpec
  import RoutingTable

  const MAX_REMOTE_QUERY_AGE := 3
  const MAX_REMOTE_PROCESS_PER_CYCLE: nat := 5
  const QUERY_NEIGHBOUR_PEERS := 8
  const MSG_ROOM: nat := 10239

  const STATUS_DHT_APPL: bv32 := 0x400
  const STATUS_RELAY_SERVER: bv32 := 0x80000

  datatype QueryType = Neighbours | LocalNet | HashQuery

  datatype RemoteQuery = RemoteQuery(id: BdId, query: NodeId, transId: Token, qtype: QueryType, ts: int)

  datatype Packet = Packet(data: Text, to: Addr)

  // -------------------------------------------------- answering remote queries

  predicate Recent(q: RemoteQuery, now: int) {
    q.ts > now - MAX_REMOTE_QUERY_AGE
  }

  /** Searches for hashes are dropped. */
  predicate Answered(q: RemoteQuery, now: int) {
    Recent(q, now) && q.qtype != HashQuery
  }

  function WantedFlags(q: RemoteQuery, relayServer: bool): bv32 {
    if q.qtype == LocalNet then STATUS_DHT_APPL else if relayServer then STATUS_RELAY_SERVER else 0
  }

  function NearList(t: RoutingSpec.Table, q: RemoteQuery, relayServer: bool): (ids: seq<BdId>)
    ensures |ids| <= QUERY_NEIGHBOUR_PEERS
  {
    IdsOf(Nearest(t, q.query, QUERY_NEIGHBOUR_PEERS, WantedFlags(q, relayServer)))
  }

  function Answer(t: RoutingSpec.Table, q: RemoteQuery, relayServer: bool): Packet {
    Packet(B.Encode(Build(ReplyNode(q.transId, t.own, NearList(t, q, relayServer)))), q.id.addr)
  }

  /** What is left of the queue, and the packets sent, when `n` queries have been answered already. */
  function Process(queue: seq<RemoteQuery>, t: RoutingSpec.Table, relayServer: bool, now: int, n: nat)
    : (seq<RemoteQuery>, seq<Packet>)
  {
    if n >= MAX_REMOTE_PROCESS_PER_CYCLE || queue == [] then (queue, [])
    else if Answered(queue[0], now) then
      var (rest, sent) := Process(queue[1..], t, relayServer, now, n + 1);
      (rest, [Answer(t, queue[0], relayServer)] + sent)
    else Process(queue[1..], t, relayServer, now, n)
  }

  /** The queries that a cycle is to answer: the recent ones among the first `k`. */
  function AnsweredIn(queue: seq<RemoteQuery>, now: int): seq<RemoteQuery> {
    if queue == [] then []
    else (if Answered(queue[0], now) then [queue[0]] else []) + AnsweredIn(queue[1..], now)
  }

  function Answers(t: RoutingSpec.Table, queries: seq<RemoteQuery>, relayServer: bool): (ps: seq<Packet>)
    ensures |ps| == |queries|
  {
    seq(|queries|, i requires 0 <= i < |queries| => Answer(t, queries[i], relayServer))
  }

  /** The first query, answered or not, and the rest. */
  lemma FirstQuery(queue: seq<RemoteQuery>, k: nat, t: RoutingSpec.Table, relayServer: bool, now: int)
    requires 0 < k <= |queue|
    ensures Answers(t, AnsweredIn(queue[..k], now), relayServer)
            == (if Answered(queue[0], now) then [Answer(t, queue[0], relayServer)] else [])
               + Answers(t, AnsweredIn(queue[1..][..k - 1], now), relayServer)
  {
    assert queue[..k][1..] == queue[1..][..k - 1] && queue[..k][0] == queue[0];
  }

  lemma DropMore(queue: seq<RemoteQuery>, rest: seq<RemoteQuery>)
    requires queue != [] && |rest| <= |queue| - 1 && rest == queue[1..][|queue| - 1 - |rest|..]
    ensures rest == queue[|queue| - |rest|..]
  {
  }

  lemma NothingAnswered(queue: seq<RemoteQuery>, t: RoutingSpec.Table, relayServer: bool, now: int)
    ensures Answers(t, AnsweredIn(queue[..0], now), relayServer) == []
  {
  }

  /**
   * A cycle takes queries off the front of the queue until it has answered
   * five or none is left, and answers exactly the recent searches among them,
   * each once and in order.
   */
  lemma {:induction false} ProcessAnswers(queue: seq<RemoteQuery>, t: RoutingSpec.Table, relayServer: bool,
      now: int, n: nat)
    requires n <= MAX_REMOTE_PROCESS_PER_CYCLE
    ensures var (rest, sent) := Process(queue, t, relayServer, now, n);
            && |rest| <= |queue| && rest == queue[|queue| - |rest|..]
            && sent == Answers(t, AnsweredIn(queue[..|queue| - |rest|], now), relayServer)
            && n + |sent| <= MAX_REMOTE_PROCESS_PER_CYCLE
            && (rest != [] ==> n + |sent| == MAX_REMOTE_PROCESS_PER_CYCLE)
  {
    hide AnsweredIn, Answer, Answers, Answered;
    if n >= MAX_REMOTE_PROCESS_PER_CYCLE || queue == [] {
      NothingAnswered(queue, t, relayServer, now);
    } else {
      var m := if Answered(queue[0], now) then n + 1 else n;
      ProcessAnswers(queue[1..], t, relayServer, now, m);
      var rest := Process(queue[1..], t, relayServer, now, m).0;
      DropMore(queue, rest);
      FirstQuery(queue, |queue| - |rest|, t, relayServer, now);
    }
  }

  /** The packets sent before, and what a cycle does from here. */
  function Before(sent: seq<Packet>, r: (seq<RemoteQuery>, seq<Packet>)): (seq<RemoteQuery>, seq<Packet>) {
    (r.0, sent + r.1)
  }

  lemma ProcessStep(queue: seq<RemoteQuery>, t: RoutingSpec.Table, relayServer: bool, now: int, n: nat)
    requires n < MAX_REMOTE_PROCESS_PER_CYCLE && queue != []
    ensures Process(queue, t, relayServer, now, n)
            == Before(if Answered(queue[0], now) then [Answer(t, queue[0], relayServer)] else [],
                      Process(queue[1..], t, relayServer, now, if Answered(queue[0], now) then n + 1 else n))
  {
    BeforeNothing(Process(queue[1..], t, relayServer, now, n));
  }

  lemma BeforeNothing(r: (seq<RemoteQuery>, seq<Packet>))
    ensures Before([], r) == r
  {
    assert [] + r.1 == r.1;
  }

  lemma BeforeMore(sent: seq<Packet>, more: seq<Packet>, r: (seq<RemoteQuery>, seq<Packet>))
    ensures Before(sent, Before(more, r)) == Before(sent + more, r)
  {
    assert sent + (more + r.1) == sent + more + r.1;
  }

  /** An answer fits into one packet and reads back as the nearest peers, at most eight. */
  lemma AnswerFits(t: RoutingSpec.Table, q: RemoteQuery, relayServer: bool)
    ensures var p := Answer(t, q, relayServer);
            var tree := B.DecodeAt(p.data + [B.NUL], 0).0;
            && |p.data| < MAX_PKT_SIZE && p.to == q.id.addr
            && tree.Some? && KindReadable(tree.value)
            && var r := Receive(tree.value);
               && r.Some? && r.value.mtype == ReplyNodeType && r.value.tid == q.transId
               && r.value.id == Some(t.own) && r.value.nodes == NearList(t, q, relayServer)
  {
    hide NearList, Build, Receive, KindReadable, B.Encode, B.DecodeAt;
    var m := ReplyNode(q.transId, t.own, NearList(t, q, relayServer));
    ReplyNodeLength(m, QUERY_NEIGHBOUR_PEERS);
    MessageRoundTrip.PacketRoundTrip(m, []);
    assert B.Encode(Build(m)) + [] + [B.NUL] == B.Encode(Build(m)) + [B.NUL];
  }

  // -------------------------------------------------------------------- the node

  class Node {
    const own: NodeId
    const space: RoutingTable.Space
    var relayServer: bool
    var remoteQueries: seq<RemoteQuery>
    var outgoing: seq<Packet>

    constructor (own: NodeId, space: RoutingTable.Space)
      requires space.own == own
      ensures this.own == own && this.space == space && !relayServer && remoteQueries == [] && outgoing == []
    {
      this.own, this.space := own, space;
      relayServer, remoteQueries, outgoing := false, [], [];
    }

    /** Every packet waiting to be sent fits into a datagram. */
    ghost predicate Fitting()
      reads this
    {
      forall i :: 0 <= i < |outgoing| ==> |outgoing[i].data| < MAX_PKT_SIZE
    }

    method QueueQuery(id: BdId, query: NodeId, transId: Token, qtype: QueryType, now: int)
      modifies this`remoteQueries
      ensures remoteQueries == old(remoteQueries) + [RemoteQuery(id, query, transId, qtype, now)]
    {
      remoteQueries := remoteQueries + [RemoteQuery(id, query, transId, qtype, now)];
    }

    /** Encodes a message into a local buffer and queues the packet. */
    method SendPkt(dict: B.Node, to: Addr)
      requires |B.Encode(dict)| < MSG_ROOM
      modifies this`outgoing
      ensures outgoing == old(outgoing) + [Packet(B.Encode(dict), to)]
    {
      var msg := new Byte[MSG_ROOM + 1](i => 0);
      var blen := BencodeWriter.EncodeInto(dict, msg, 0, MSG_ROOM);
      outgoing := outgoing + [Packet(msg[0..blen], to)];
    }

    method MsgoutReplyFindNode(id: BdId, transId: Token, peers: seq<BdId>)
      requires |B.Encode(Build(ReplyNode(transId, own, peers)))| < MSG_ROOM
      modifies this`outgoing
      ensures outgoing == old(outgoing) + [Packet(B.Encode(Build(ReplyNode(transId, own, peers))), id.addr)]
      ensures old(Fitting()) && |peers| <= QUERY_NEIGHBOUR_PEERS ==> Fitting()
    {
      if |peers| <= QUERY_NEIGHBOUR_PEERS {
        ReplyNodeLength(ReplyNode(transId, own, peers), QUERY_NEIGHBOUR_PEERS);
      }
      var dict := MessageBuilders.RespNodeMsg(transId, own, peers);
      SendPkt(dict, id.addr);
    }

    method MsgoutConnectGenmsg(id: BdId, transId: Token, kind: Int32, src: BdId, dest: BdId,
                               mode: Int32, param: Int32, status: Int32)
      modifies this`outgoing
      ensures outgoing == old(outgoing)
                + [Packet(B.Encode(Build(Connect(transId, own, kind, src, dest, mode, param, status))), id.addr)]
      ensures old(Fitting()) ==> Fitting()
    {
      ConnectLength(Connect(transId, own, kind, src, dest, mode, param, status));
      var dict := MessageBuilders.ConnectGenmsg(transId, own, kind, src, dest, mode, param, status);
      SendPkt(dict, id.addr);
    }

    /** One cycle over the queue of remote queries. */
    method ProcessRemoteQuery(now: int)
      requires space.own == own
      modifies this`remoteQueries, this`outgoing
      ensures var (rest, sent) := Process(old(remoteQueries), space.State(), relayServer, now, 0);
              remoteQueries == rest && outgoing == old(outgoing) + sent
      ensures old(Fitting()) ==> Fitting()
    {
      var nProcessed: nat := 0;
      ghost var t := space.State();
      ghost var all := Process(remoteQueries, t, relayServer, now, 0);
      ghost var sent: seq<Packet> := [];
      BeforeNothing(all);
      while nProcessed < MAX_REMOTE_PROCESS_PER_CYCLE && remoteQueries != []
        invariant space.State() == t && outgoing == old(outgoing) + sent
        invariant all == Before(sent, Process(remoteQueries, t, relayServer, now, nProcessed))
        invariant old(Fitting()) ==> Fitting()
        decreases |remoteQueries|
      {
        ghost var queue := remoteQueries;
        ghost var more := if Answered(queue[0], now) then [Answer(t, queue[0], relayServer)] else [];
        ghost var n := nProcessed;
        nProcessed := ProcessFront(nProcessed, now);
        ProcessStep(queue, t, relayServer, now, n);
        BeforeMore(sent, more, Process(remoteQueries, t, relayServer, now, nProcessed));
        sent := sent + more;
      }
      assert sent + [] == sent;
    }

    /** Answers the first query if it is to be answered, and takes it off the queue. */
    method ProcessFront(n: nat, now: int) returns (nProcessed: nat)
      requires space.own == own && remoteQueries != []
      modifies this`remoteQueries, this`outgoing
      ensures remoteQueries == old(remoteQueries)[1..]
      ensures var query := old(remoteQueries)[0];
              && nProcessed == (if Answered(query, now) then n + 1 else n)
              && outgoing == old(outgoing)
                             + if Answered(query, now) then [Answer(space.State(), query, relayServer)] else []
      ensures old(Fitting()) ==> Fitting()
    {
      nProcessed := n;
      var query := remoteQueries[0];
      if query.ts > now - MAX_REMOTE_QUERY_AGE {
        nProcessed := nProcessed + 1;
        match query.qtype {
          case HashQuery => nProcessed := nProcessed - 1;
          case Neighbours => AnswerQuery(query);
          case LocalNet => AnswerQuery(query);
        }
      }
      remoteQueries := remoteQueries[1..];
    }

    method AnswerQuery(query: RemoteQuery)
      requires query.qtype != HashQuery && space.own == own
      modifies this`outgoing
      ensures outgoing == old(outgoing) + [Answer(space.State(), query, relayServer)]
      ensures old(Fitting()) ==> Fitting()
    {
      var flags: bv32 := 0;
      if query.qtype == LocalNet {
        flags := STATUS_DHT_APPL;
      } else if relayServer {
        flags := STATUS_RELAY_SERVER;
      }
      var nearest := space.FindNearestNodesWithFlags(query.query, QUERY_NEIGHBOUR_PEERS, [], flags);
      var nearList := IdsOf(nearest);
      ReplyNodeLength(ReplyNode(query.transId, own, nearList), QUERY_NEIGHBOUR_PEERS);
      MsgoutReplyFindNode(query.id, query.transId, nearList);
    }

    /** Hands out the first packet, cut to the caller's buffer. */
    method OutgoingMsg(len: nat) returns (data: Option<Text>, to: Addr)
      modifies this`outgoing
      ensures old(outgoing) == [] ==> data.None? && outgoing == []
      ensures old(outgoing) != [] ==>
                var p := old(outgoing)[0];
                outgoing == old(outgoing)[1..] && to == p.to
                && data == Some(if |p.data| < len then p.data else p.data[..len])
      ensures old(Fitting()) ==> Fitting()
      ensures old(outgoing) != [] && old(Fitting()) && len == MAX_PKT_SIZE ==> data == Some(old(outgoing)[0].data)
    {
      data, to := None, NO_ADDR;
      if |outgoing| > 0 {
        var bdmsg := outgoing[0];
        outgoing := outgoing[1..];
        var size := len;
        if |bdmsg.data| < size {
          size := |bdmsg.data|;
        }
        data, to := Some(bdmsg.data[..size]), bdmsg.to;
        assert bdmsg.data[..|bdmsg.data|] == bdmsg.data;
      }
    }
  }
}
