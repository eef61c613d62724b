/** The connection manager as the object it is: two tables updated in place. */
module ConnectManager {
  import opened Collections
  import opened Ids
  import opened ConnectTypes
  import Spec = ConnectSpec

  class Manager {
    const own: NodeId
    var allowed: bv32
    var autoProxy: bool
    var relayServer: bool
    var connections: map<Tuple, Connection>
    var requests: map<NodeId, Request>
    var outbox: seq<Packet>
    var callbacks: seq<Callback>

    ghost function Node(): Spec.Node
      reads this
    {
      Spec.Node(own, allowed, autoProxy, relayServer, connections, requests, outbox, callbacks)
    }

    /** The relay mode is not set by the program's constructor: it is whatever was there. */
    constructor (own: NodeId, relayServer: bool)
      ensures Node() == Spec.Node(own, MODE_PROXY, true, relayServer, map[], map[], [], [])
    {
      this.own, this.relayServer := own, relayServer;
      allowed, autoProxy := MODE_PROXY, true;
      connections, requests, outbox, callbacks := map[], map[], [], [];
    }

    method SetConnectionOptions(modes: bv32, auto: bool)
      modifies this
      ensures Node() == old(Node()).(allowed := modes, autoProxy := auto)
    {
      allowed, autoProxy := modes, auto;
    }

    method SetRelayMode(server: bool)
      modifies this`relayServer
      ensures Node() == old(Node()).(relayServer := server)
    {
      relayServer := server;
    }

    method ShutdownConnections()
      modifies this
      ensures Node() == old(Node()).(conns := map[], reqs := map[])
    {
      requests := map[];
      connections := map[];
    }

    method SendConnectMsg(to: BdId, kind: MsgKind, src: BdId, dest: BdId, mode: bv32, param: int, status: bv32)
      modifies this`outbox
      ensures Node() == old(Node()).Send(to, kind, src, dest, mode, param, status)
    {
      outbox := outbox + [Packet(own, to, ConnectMsg(kind, src, dest, mode, param, status))];
    }

    method CallbackConnect(cb: Callback)
      modifies this`callbacks
      ensures Node() == old(Node()).Call(cb)
    {
      callbacks := callbacks + [cb];
    }

    /** Scans the whole table for a connection from `src` to `dest`. */
    method FindSimilarConnection(src: NodeId, dest: NodeId) returns (found: bool)
      ensures found == Spec.FindSimilar(connections, src, dest)
    {
      var rest := connections.Keys;
      while rest != {}
        invariant rest <= connections.Keys
        invariant forall k :: k in connections && k !in rest ==> !(k.src == src && k.dest == dest)
        decreases |rest|
      {
        var k :| k in rest;
        if k.src == src && k.dest == dest {
          return true;
        }
        rest := rest - {k};
      }
      return false;
    }

    // ------------------------------------------------------------ connections

    method StartAttempt(proxy: BdId, src: BdId, dest: BdId, mode: bv32, delay: int, now: int) returns (ok: bool)
      modifies this
      ensures (Node(), ok) == Spec.StartAttempt(old(Node()), proxy, src, dest, mode, delay, now)
    {
      if allowed & mode == 0 {
        return false;
      }
      var k := Spec.KeyBySender(own, proxy, src, dest);
      if k in connections {
        return false;
      }
      var opposite := FindSimilarConnection(dest.id, src.id);
      if opposite {
        return false;
      }
      CallbackConnect(Callback(src, proxy, dest, mode, StartPoint, 0, CbRequest, 0));
      var c: Connection;
      if mode == MODE_DIRECT {
        c := ConnectionSetupDirect(proxy, src, now);
      } else {
        c := ConnectionSetup(proxy, src, dest, mode, delay, now);
      }
      connections := connections[k := c];
      SendConnectMsg(c.proxyId, MsgRequest, c.srcConnAddr, c.destConnAddr, c.mode, c.maxDelay, ANSWER_OKAY);
      return true;
    }

    method AuthConnectionOk(src: BdId, proxy: BdId, dest: BdId, mode: bv32, loc: Point,
                            bandwidth: int, delay: int, now: int)
      modifies this
      ensures Node() == Spec.AuthOk(old(Node()), src, proxy, dest, mode, loc, bandwidth, delay, now)
    {
      var k := Tuple(src.id, proxy.id, dest.id);
      if k !in connections {
        return;
      }
      var c := connections[k];
      if mode == MODE_DIRECT {
        if c.state == WaitingAuth {
          connections := connections[k := AuthoriseDirectConnection(c, dest, now)];
        }
        return;
      }
      if loc == EndPoint {
        if c.state == WaitingAuth {
          c := AuthoriseEndConnection(c, dest, delay, now);
          connections := connections[k := c];
          SendConnectMsg(c.proxyId, MsgReply, c.srcConnAddr, c.destConnAddr, c.mode, c.maxDelay, ANSWER_OKAY);
          return;
        }
      }
      if c.state == WaitingAuth {
        c := AuthoriseProxyConnection(c, bandwidth, now);
        connections := connections[k := c];
        SendConnectMsg(c.destId, MsgRequest, c.srcConnAddr, c.destConnAddr, c.mode, 0, ANSWER_OKAY);
      }
    }

    method AuthConnectionNo(src: BdId, proxy: BdId, dest: BdId, mode: bv32, loc: Point, err: bv32)
      modifies this
      ensures Node() == Spec.AuthNo(old(Node()), src, proxy, dest, mode, loc, err)
    {
      var k := Tuple(src.id, proxy.id, dest.id);
      if k !in connections {
        return;
      }
      var c := connections[k];
      var status := CreateErrorCode(err, ERROR_AUTH_DENIED, c.point);
      if mode == MODE_DIRECT {
        SendConnectMsg(c.srcId, MsgReply, c.srcConnAddr, c.destConnAddr, mode, 0, status);
      } else if loc == EndPoint {
        SendConnectMsg(c.proxyId, MsgReply, c.srcConnAddr, c.destConnAddr, mode, 0, status);
      } else {
        SendConnectMsg(c.srcId, MsgReply, c.srcConnAddr, c.destConnAddr, mode, 0, status);
      }
      connections := connections - {k};
    }

    /** `found` is what the routing table answers for the destination's id. */
    method RecvedConnectionRequest(id: BdId, src: BdId, dest: BdId, mode: bv32, delay: int,
                                   found: Option<BdId>, now: int) returns (ok: bool)
      modifies this
      ensures (Node(), ok) == Spec.RecvRequest(old(Node()), id, src, dest, mode, delay, found, now)
    {
      var k := Spec.KeyBySender(own, id, src, dest);
      var objection := FindObjection(k, mode);
      match objection {
        case Some((error, point)) =>
          SendConnectMsg(id, MsgReply, src, dest, mode, 0, CreateErrorCode(0, error, point));
          return false;
        case None =>
          InstallRequested(k, id, src, dest, mode, delay, found, now);
          return true;
      }
    }

    method FindObjection(k: Tuple, mode: bv32) returns (o: Option<(bv32, Point)>)
      ensures o == Spec.Objection(Node(), k, mode)
      ensures o.None? ==> k !in connections
    {
      var opposite := FindSimilarConnection(k.dest, k.src);
      if allowed & mode == 0 {
        o := Some((ERROR_UNSUPPORTED, Spec.Position(own, k.src, k.dest)));
      } else if k in connections {
        o := Some((ERROR_DUPLICATE, connections[k].point));
      } else if opposite {
        o := Some((ERROR_DUPLICATE, Spec.Position(own, k.src, k.dest)));
      } else {
        o := None;
      }
    }

    method InstallRequested(k: Tuple, id: BdId, src: BdId, dest: BdId, mode: bv32, delay: int,
                            found: Option<BdId>, now: int)
      requires k !in connections
      modifies this
      ensures Node() == Spec.InstallRequested(old(Node()), k, id, src, dest, mode, delay, found, now)
    {
      if mode == MODE_DIRECT {
        var c := ConnectionRequestDirect(id, src, dest, now);
        connections := connections[k := c];
        CallbackConnect(Callback(c.srcId, c.proxyId, c.destId, c.mode, c.point, 0, CbAuth, 0));
        return;
      }
      var areProxy := src.id == id.id;
      if areProxy {
        match found {
          case Some(destId) =>
            var c := ConnectionRequestProxy(id, src, own, destId, mode, delay, now);
            connections := connections[k := c];
            if autoProxy && mode == MODE_PROXY {
              AuthConnectionOk(c.srcId, c.proxyId, c.destId, c.mode, c.point, 0, 0, now);
            } else {
              CallbackConnect(Callback(c.srcId, c.proxyId, c.destId, c.mode, c.point, 0, CbAuth, 0));
            }
          case None =>
            SendConnectMsg(id, MsgReply, src, dest, mode, 0, CreateErrorCode(0, ERROR_NOADDRESS, MidPoint));
            if relayServer {
              CallbackConnect(Callback(src, BdId(own, NO_ADDR), dest, mode, MidPoint, 0, CbAuth, ERROR_NOADDRESS));
            }
        }
      } else {
        var c := ConnectionRequestEnd(id, src, dest, mode, now);
        connections := connections[k := c];
        CallbackConnect(Callback(c.srcId, c.proxyId, c.destId, c.mode, c.point, 0, CbAuth, 0));
      }
    }

    method RecvedConnectionReply(id: BdId, src: BdId, dest: BdId, mode: bv32, delay: int, status: bv32, now: int)
      returns (ok: bool)
      modifies this
      ensures (Node(), ok) == Spec.RecvReply(old(Node()), id, src, dest, mode, delay, status, now)
    {
      var k := Spec.KeyBySender(own, id, src, dest);
      if k !in connections {
        return false;
      }
      var c := connections[k];
      if c.point == MidPoint {
        ok := ReplyAtProxy(k, c, dest, mode, delay, status, now);
      } else {
        FailAtEnd(c, status, now);
        connections := connections - {k};
        ok := false;
      }
    }

    method ReplyAtProxy(k: Tuple, c: Connection, dest: BdId, mode: bv32, delay: int, status: bv32, now: int)
      returns (ok: bool)
      modifies this
      ensures (Node(), ok) == Spec.ReplyAtProxy(old(Node()), k, c, dest, mode, delay, status, now)
    {
      var quiet := c.mode == MODE_PROXY && autoProxy;
      if status == ANSWER_OKAY && c.state == WaitingReply {
        var u := UpgradeToFinish(c, dest, delay, now);
        connections := connections[k := u];
        if !quiet {
          CallbackConnect(Callback(u.srcId, u.proxyId, u.destId, u.mode, u.point, 0, CbPending, 0));
        }
        return true;
      }
      var err := status;
      if err == ANSWER_OKAY {
        err := CreateErrorCode(0, ERROR_PROTOCOL, c.point);
      }
      if !quiet {
        CallbackConnect(Callback(c.srcId, c.proxyId, c.destId, c.mode, c.point, 0, CbFailed, err));
      }
      SendConnectMsg(c.srcId, MsgReply, c.srcConnAddr, c.destConnAddr, mode, 0, err);
      connections := connections - {k};
      return false;
    }

    method FailAtEnd(c: Connection, status: bv32, now: int)
      modifies this`requests, this`callbacks
      ensures Node() == Spec.FailAtEnd(old(Node()), c, status, now)
    {
      var err: bv32;
      if status != ANSWER_OKAY && c.point == StartPoint {
        err := status;
      } else {
        err := CreateErrorCode(0, ERROR_PROTOCOL, c.point);
      }
      var cb := Callback(c.srcId, c.proxyId, c.destId, c.mode, c.point, 0, CbFailed, err);
      if c.point == StartPoint {
        CallbackConnectRequest(cb, now);
      } else {
        CallbackConnect(cb);
      }
    }

    method RecvedConnectionStart(id: BdId, src: BdId, dest: BdId, mode: bv32, param: int, now: int) returns (ok: bool)
      modifies this
      ensures (Node(), ok) == Spec.RecvStart(old(Node()), id, src, dest, mode, param, now)
    {
      var k := Spec.KeyBySender(own, id, src, dest);
      if k !in connections {
        return false;
      }
      var c := connections[k];
      if c.state != WaitingStart && c.state != Completed {
        return false;
      }
      SendConnectMsg(id, MsgAck, c.srcId, c.destId, mode, 0, ANSWER_OKAY);
      if c.state != Completed {
        var bandwidth, delay := 0, 0;
        if c.mode == MODE_RELAY {
          bandwidth := param;
        } else {
          delay := param;
        }
        c := CompleteConnection(c, src, dest, bandwidth, delay, now);
        connections := connections[k := c];
        CallbackConnectRequest(Callback(c.srcConnAddr, c.proxyId, c.destConnAddr, c.mode, c.point, param, CbStart,
                               0), now);
      }
      return true;
    }

    method RecvedConnectionAck(id: BdId, src: BdId, dest: BdId, now: int) returns (ok: bool)
      modifies this
      ensures (Node(), ok) == Spec.RecvAck(old(Node()), id, src, dest, now)
    {
      var k := Spec.KeyBySender(own, id, src, dest);
      if k !in connections {
        return false;
      }
      var c := connections[k];
      if c.point == StartPoint || c.state != WaitingAck {
        return false;
      }
      if id.id == src.id {
        c := c.(srcAck := true);
      } else if id.id == dest.id {
        c := c.(destAck := true);
      }
      if c.srcAck && c.destAck {
        FinishConnection(k, c, now);
      } else {
        connections := connections[k := c];
      }
      return true;
    }

    method FinishConnection(k: Tuple, c: Connection, now: int)
      modifies this
      ensures Node() == Spec.FinishConnection(old(Node()), k, c, now)
    {
      if c.mode == MODE_DIRECT {
        CallbackConnectRequest(Callback(c.srcConnAddr, c.proxyId, c.destId, c.mode, c.point, 0, CbStart, 0), now);
      } else if c.mode != MODE_PROXY || !autoProxy {
        CallbackConnect(Callback(c.srcId, c.proxyId, c.destId, c.mode, c.point, 0, CbProxy, 0));
      }
      connections := connections - {k};
    }

    /** The timer sweep in the table's order; expired entries are erased at the end. */
    method IterateConnections(order: seq<Tuple>, now: int)
      requires Spec.Lists(order, connections.Keys)
      modifies this
      ensures Node() == Spec.TickConns(old(Node()), order, now)
    {
      var eraseList := VisitConnections(order, now);
      EraseConnections(eraseList);
    }

    method EraseConnections(list: seq<Tuple>)
      modifies this`connections
      ensures connections == old(connections) - Elements(list)
    {
      var eraseList := list;
      while eraseList != []
        invariant connections - Elements(eraseList) == old(connections) - Elements(list)
        decreases |eraseList|
      {
        var tuple := eraseList[0];
        assert Elements(eraseList) == {tuple} + Elements(eraseList[1..]);
        assert connections - Elements(eraseList) == (connections - {tuple}) - Elements(eraseList[1..]);
        eraseList := eraseList[1..];
        connections := connections - {tuple};
      }
      assert connections == connections - Elements(eraseList);
    }

    method VisitConnections(order: seq<Tuple>, now: int) returns (eraseList: seq<Tuple>)
      requires Spec.Lists(order, connections.Keys)
      modifies this
      ensures (Node(), Elements(eraseList)) == Spec.VisitConns(old(Node()), order, now)
    {
      ghost var n := Node();
      eraseList := [];
      VisitConnsFirst(n, order, now);
      for i := 0 to |order|
        invariant connections.Keys == n.conns.Keys
        invariant (Node(), Elements(eraseList)) == Spec.VisitConns(n, order[..i], now)
      {
        VisitConnsNext(n, order, i, now);
        var erase := VisitConnection(order[i], now);
        if erase {
          ElementsAppend(eraseList, order[i]);
          eraseList := eraseList + [order[i]];
        }
      }
      assert order[..|order|] == order;
    }

    method VisitConnection(k: Tuple, now: int) returns (erase: bool)
      requires k in connections
      modifies this
      ensures (Node(), erase) == Spec.TickConn(old(Node()), k, now)
    {
      var c := connections[k];
      if now - c.lastEvent > CONNECTION_MAX_TIMEOUT {
        return true;
      }
      if c.state == WaitingAck && now - c.lastStart > START_RETRY_PERIOD {
        if c.retryCount > START_MAX_RETRY {
          if c.mode != MODE_PROXY || !autoProxy {
            CallbackConnect(Callback(c.srcId, c.proxyId, c.destId, c.mode, c.point, 0, CbFailed,
                                     CreateErrorCode(0, ERROR_TIMEOUT, c.point)));
          }
          return true;
        }
        Resend(k, now);
      }
      return false;
    }

    /** One round of START messages. */
    method Resend(k: Tuple, now: int)
      requires k in connections
      modifies this`connections, this`outbox
      ensures Node() == Spec.Resend(old(Node()), k, now)
    {
      var c := connections[k];
      ghost var toSrc := Spec.StartTo(own, c, c.srcId, c.srcAck, now);
      ghost var toDest := Spec.StartTo(own, c, c.destId, c.destAck, now);
      connections := connections[k := c.(lastStart := now, retryCount := c.retryCount + 1)];
      var remaining := c.maxDelay - (now - c.connectionStartTS);
      if remaining < 0 {
        remaining := 0;
      }
      var param := remaining;
      if c.mode == MODE_RELAY {
        param := c.bandwidth;
      }
      if !c.srcAck {
        SendConnectMsg(c.srcId, MsgStart, c.srcConnAddr, c.destConnAddr, c.mode, param, ANSWER_OKAY);
      }
      assert outbox == old(outbox) + toSrc;
      if !c.destAck {
        SendConnectMsg(c.destId, MsgStart, c.srcConnAddr, c.destConnAddr, c.mode, param, ANSWER_OKAY);
      }
      assert outbox == old(outbox) + toSrc + toDest == old(outbox) + (toSrc + toDest);
    }

    // --------------------------------------------------------------- requests

    method CallbackConnectRequest(cb: Callback, now: int)
      modifies this`requests, this`callbacks
      ensures Node() == Spec.CallbackRequest(old(Node()), cb, now)
    {
      if cb.point != StartPoint {
        if cb.kind == CbStart && cb.point == EndPoint {
          if cb.src.id in requests {
            requests := requests[cb.src.id := requests[cb.src.id].(state := ExtConnect, stateTS := now)];
          }
          CallbackConnect(cb);
        }
        return;
      }
      if cb.dest.id !in requests {
        return;
      }
      var cr := requests[cb.dest.id];
      match cb.kind {
        case CbFailed =>
          cr := FailRequest(cr, cb.mode, cb.err, now);
          requests := requests[cb.dest.id := cr];
          CallbackConnect(cb);
        case CbStart =>
          requests := requests[cb.dest.id := cr.(state := ExtConnect, stateTS := now)];
          CallbackConnect(cb);
        case _ =>
      }
    }

    /** The request timers in the table's order; finished requests are erased at the end. */
    method IterateConnectionRequests(order: seq<NodeId>, now: int)
      requires Spec.Lists(order, requests.Keys)
      modifies this
      ensures Node() == Spec.TickRequests(old(Node()), order, now)
    {
      var eraseList := VisitRequests(order, now);
      EraseRequests(eraseList);
    }

    method EraseRequests(list: seq<NodeId>)
      modifies this`requests
      ensures requests == old(requests) - Elements(list)
    {
      var eraseList := list;
      while eraseList != []
        invariant requests - Elements(eraseList) == old(requests) - Elements(list)
        decreases |eraseList|
      {
        var t := eraseList[0];
        assert Elements(eraseList) == {t} + Elements(eraseList[1..]);
        assert requests - Elements(eraseList) == (requests - {t}) - Elements(eraseList[1..]);
        eraseList := eraseList[1..];
        requests := requests - {t};
      }
      assert requests == requests - Elements(eraseList);
    }

    method VisitRequests(order: seq<NodeId>, now: int) returns (eraseList: seq<NodeId>)
      requires Spec.Lists(order, requests.Keys)
      modifies this
      ensures (Node(), Elements(eraseList)) == Spec.VisitRequests(old(Node()), order, now)
    {
      ghost var n := Node();
      eraseList := [];
      VisitRequestsFirst(n, order, now);
      for i := 0 to |order|
        invariant requests.Keys == n.reqs.Keys
        invariant (Node(), Elements(eraseList)) == Spec.VisitRequests(n, order[..i], now)
      {
        VisitRequestsNext(n, order, i, now);
        var erase := VisitRequest(order[i], now);
        if erase {
          ElementsAppend(eraseList, order[i]);
          eraseList := eraseList + [order[i]];
        }
      }
      assert order[..|order|] == order;
    }

    method VisitRequest(t: NodeId, now: int) returns (erase: bool)
      requires t in requests
      modifies this
      ensures (Node(), erase) == Spec.TickRequest(old(Node()), t, now)
    {
      var r := requests[t];
      match r.state {
        case Ready =>
          var ok := StartRequest(t, now);
          if !ok {
            requests := requests[t := Spec.FinishRequest(requests[t], ERROR_OUTOFPROXY, now)];
          }
          return false;
        case Done =>
          CallbackConnect(Callback(NO_ID, NO_ID, BdId(r.target, NO_ADDR), r.mode, StartPoint, 0, CbRequest, r.errCode));
          return true;
        case Paused =>
          if now > r.pauseTS {
            if |r.goodProxies| == 0 {
              r := Spec.FinishRequest(r, ERROR_OUTOFPROXY, now);
            } else if r.recycled > |r.goodProxies| * MAX_NUM_RETRIES {
              r := Spec.FinishRequest(r, ERROR_TOOMANYRETRY, now);
            } else {
              r := r.(state := Ready, stateTS := now);
            }
          }
        case InProgress =>
          if now - r.stateTS > REQUEST_TIMEOUT_INPROGRESS {
            r := r.(state := Paused, stateTS := now, pauseTS := now + PAUSE_SHORT_PERIOD);
          }
        case ExtConnect =>
          if now - r.stateTS > REQUEST_TIMEOUT_CONNECT {
            r := Spec.FinishRequest(r, ERROR_PROTOCOL, now);
          }
      }
      requests := requests[t := r];
      return false;
    }

    method StartRequest(t: NodeId, now: int) returns (ok: bool)
      requires t in requests
      modifies this
      ensures (Node(), ok) == Spec.StartRequest(old(Node()), t, now)
      ensures requests.Keys == old(requests.Keys)
    {
      var r := requests[t];
      if |r.goodProxies| < 1 {
        return false;
      }
      var delay := r.delay - (now - r.requestTS);
      var absDelay := 0;
      if delay > 0 {
        absDelay := delay;
      }
      var first := r.goodProxies[0];
      requests := requests[t := r.(goodProxies := r.goodProxies[1..], currentAttempt := first.id,
                                   currentSrcType := first.srcType, state := InProgress, stateTS := now)];
      if r.mode == MODE_DIRECT {
        if r.target != first.id.id {
          return false;
        }
      } else if r.target == first.id.id {
        return false;
      }
      ok := StartAttempt(first.id, BdId(own, r.localAddr), BdId(r.target, NO_ADDR), r.mode, absDelay, now);
    }

    method RequestConnection(local: Addr, target: NodeId, mode: bv32, delay: int,
                             proxies: seq<ProxyId>, potential: seq<BdId>, now: int) returns (ok: bool)
      modifies this`requests
      ensures (Node(), ok) == Spec.NewRequest(old(Node()), local, target, mode, delay, proxies, potential, now)
    {
      if allowed & mode == 0 || target == own || target in requests {
        return false;
      }
      var state, pauseTS, left := Ready, 0, 0;
      if mode != MODE_DIRECT {
        left := delay;
        if |proxies| < MIN_START_PROXY_COUNT {
          state, pauseTS := Paused, now + PAUSE_START_PERIOD;
        }
      }
      var r := Request(target, local, mode, state, now, pauseTS, 0, left, now, proxies, potential, 0, NO_ID,
                       SrcUnknown, []);
      assert r == Spec.FreshRequest(local, target, mode, delay, proxies, potential, now);
      hide Spec.FreshRequest;
      requests := requests[target := r];
      return true;
    }

    method KillConnectionRequest(target: NodeId, now: int) returns (ok: bool)
      modifies this`requests
      ensures (Node(), ok) == Spec.KillRequest(old(Node()), target, now)
    {
      if target !in requests {
        return false;
      }
      var r := requests[target].(state := Done, stateTS := now, errCode := SOURCE_START | ERROR_USER);
      requests := requests[target := r];
      return true;
    }

    method AddPotentialConnectionProxy(id: BdId, target: NodeId, engine: bool)
      modifies this`requests
      ensures Node() == Spec.AddPotentialProxy(old(Node()), id, target, engine)
    {
      if target !in requests || requests[target].mode == MODE_DIRECT || id.id == target {
        return;
      }
      if engine {
        var r := AddGoodProxy(requests[target], id);
        requests := requests[target := r];
      }
    }

    method UpdatePotentialConnectionProxy(id: BdId)
      modifies this`requests
      ensures Node() == Spec.UpdatePotentialProxy(old(Node()), id)
    {
      hide Spec.CheckAll;
      CheckRequests(id);
    }

    method CheckRequests(id: BdId)
      modifies this`requests
      ensures requests == Spec.CheckAll(old(requests), id)
    {
      hide Spec.CheckGoodProxy;
      ghost var was := requests;
      var rest := requests.Keys;
      while rest != {}
        invariant rest <= requests.Keys == was.Keys
        invariant forall t :: t in was ==>
                    requests[t] == if t in rest then was[t] else Spec.CheckGoodProxy(was[t], id)
        decreases |rest|
      {
        var t :| t in rest;
        var r := CheckGoodProxy(requests[t], id);
        requests := requests[t := r];
        rest := rest - {t};
      }
    }
  }

  /** What a failed attempt does to its request. */
  method FailRequest(r: Request, mode: bv32, err: bv32, now: int) returns (r': Request)
    ensures r' == Spec.FailRequest(r, mode, err, now)
  {
    var state, pauseTS, good, peers, recycled := Done, r.pauseTS, r.goodProxies, r.peersTried, r.recycled;
    var move := Spec.Decide(err, mode);
    if move != Spec.Fatal {
      var tried := ProxyId(r.currentAttempt, r.currentSrcType, err);
      if move == Spec.Recycle {
        good, recycled := good + [tried], recycled + 1;
      } else {
        peers := peers + [tried];
      }
      state, pauseTS := Paused, now + PAUSE_SHORT_PERIOD;
    }
    r' := r.(goodProxies := good, peersTried := peers, recycled := recycled,
             state := state, pauseTS := pauseTS, stateTS := now, errCode := err);
  }

  /** A potential proxy that has answered becomes a good one. */
  method CheckGoodProxy(r: Request, id: BdId) returns (r': Request)
    ensures r' == Spec.CheckGoodProxy(r, id)
  {
    r' := r;
    if id in r.potentialProxies {
      var left := RemoveFirst(r.potentialProxies, id);
      r' := AddGoodProxy(r.(potentialProxies := left), id);
    }
  }

  // ------------------------------------------------------------ list searches

  method Contains(ps: seq<ProxyId>, id: BdId) returns (found: bool)
    ensures found == Spec.Holds(ps, id)
  {
    for i := 0 to |ps|
      invariant forall j :: 0 <= j < i ==> ps[j].id != id
    {
      if ps[i].id == id {
        return true;
      }
    }
    return false;
  }

  lemma FirstKept(s: seq<BdId>, i: nat, id: BdId)
    requires i < |s| && s[i] != id
    ensures s[..i] + Spec.RemoveFirst(s[i..], id) == s[..i + 1] + Spec.RemoveFirst(s[i + 1..], id)
  {
    assert s[i..][1..] == s[i + 1..] && s[..i + 1] == s[..i] + [s[i]];
  }

  /** Finds the first occurrence and erases it. */
  method RemoveFirst(s: seq<BdId>, id: BdId) returns (r: seq<BdId>)
    ensures r == Spec.RemoveFirst(s, id)
  {
    var i := 0;
    while i < |s| && s[i] != id
      invariant 0 <= i <= |s|
      invariant Spec.RemoveFirst(s, id) == s[..i] + Spec.RemoveFirst(s[i..], id)
    {
      FirstKept(s, i, id);
      i := i + 1;
    }
    if i == |s| {
      return s;
    }
    assert s[i..][1..] == s[i + 1..];
    r := s[..i] + s[i + 1..];
  }

  method AddGoodProxy(r: Request, id: BdId) returns (r': Request)
    ensures r' == Spec.AddGoodProxy(r, id)
  {
    r' := r;
    if id == r.currentAttempt {
      return;
    }
    var tried := Contains(r.peersTried, id);
    if !tried {
      var listed := Contains(r.goodProxies, id);
      if !listed {
        var left := RemoveFirst(r.potentialProxies, id);
        r' := r.(goodProxies := r.goodProxies + [ProxyId(id, AddGoodProxySource, 0)], potentialProxies := left);
      }
    }
  }

  ghost function Elements<K>(s: seq<K>): set<K> {
    set k | k in s
  }

  lemma ElementsAppend<K>(s: seq<K>, k: K)
    ensures Elements(s + [k]) == Elements(s) + {k}
  {
  }

  lemma VisitConnsFirst(n: Spec.Node, order: seq<Tuple>, now: int)
    ensures Spec.VisitConns(n, order[..0], now) == (n, {})
    ensures Elements<Tuple>([]) == {}
  {
  }

  lemma VisitConnsNext(n: Spec.Node, order: seq<Tuple>, i: nat, now: int)
    requires i < |order| && Spec.Lists(order, n.conns.Keys)
    ensures var (m, gone) := Spec.VisitConns(n, order[..i], now);
            var (m', erase) := Spec.TickConn(m, order[i], now);
            Spec.VisitConns(n, order[..i + 1], now) == (m', if erase then gone + {order[i]} else gone)
  {
    assert order[..i + 1][..i] == order[..i];
  }

  lemma VisitRequestsFirst(n: Spec.Node, order: seq<NodeId>, now: int)
    ensures Spec.VisitRequests(n, order[..0], now) == (n, {})
    ensures Elements<NodeId>([]) == {}
  {
  }

  lemma VisitRequestsNext(n: Spec.Node, order: seq<NodeId>, i: nat, now: int)
    requires i < |order| && Spec.Lists(order, n.reqs.Keys)
    ensures var (m, gone) := Spec.VisitRequests(n, order[..i], now);
            var (m', erase) := Spec.TickRequest(m, order[i], now);
            Spec.VisitRequests(n, order[..i + 1], now) == (m', if erase then gone + {order[i]} else gone)
  {
    assert order[..i + 1][..i] == order[..i];
  }
}
