/**
 * What time, the user and other peers do to one request, each case with its
 * condition.  Reasons and periods are written as the numbers they have in the
 * program.
 */
module RequestSteps {
  import opened Ids
  import opened ConnectTypes
  import opened ConnectSpec

  // -------------------------------------------------------------------- the timer

  /** Given up at the source (0x1 in the third byte) for this reason. */
  predicate GivenUpFor(r: Request, r': Request, reason: bv32, now: int) {
    r' == r.(state := Done, stateTS := now, errCode := r'.errCode) && r'.errCode == 0x1_0000 | reason
  }

  /**
   * What the passing of time does to a request that is not about to start.  A
   * pause ends it if no proxy is left (12), or if it has recycled more than three
   * times as many as are left (11).  After thirty seconds an attempt is given up
   * for the next proxy, and after five minutes a connection that was made (2).
   */
  lemma TimeDoes(r: Request, now: int)
    requires r.state != Ready
    ensures var r' := AgeRequest(r, now);
            match r.state
            case Paused =>
              if now <= r.pauseTS then r' == r
              else if r.goodProxies == [] then GivenUpFor(r, r', 12, now)
              else if r.recycled > 3 * |r.goodProxies| then GivenUpFor(r, r', 11, now)
              else r' == r.(state := Ready, stateTS := now)
            case InProgress =>
              if now > r.stateTS + 30 then r' == r.(state := Paused, stateTS := now, pauseTS := now + 1) else r' == r
            case ExtConnect => if now > r.stateTS + 300 then GivenUpFor(r, r', 2, now) else r' == r
            case Done => r' == r
  {
    GivenUpWith(r, ERROR_OUTOFPROXY, now);
    GivenUpWith(r, ERROR_TOOMANYRETRY, now);
    GivenUpWith(r, ERROR_PROTOCOL, now);
    hide GivenUpFor, FinishRequest;
  }

  lemma GivenUpWith(r: Request, reason: bv32, now: int)
    ensures GivenUpFor(r, FinishRequest(r, reason, now), reason, now)
  {
  }

  /** Nothing else stands in the way of the attempt that is due. */
  ghost predicate CanStart(n: Node, t: NodeId)
    requires t in n.reqs
  {
    var r := n.reqs[t];
    && r.goodProxies != [] && (r.mode == 1 <==> r.goodProxies[0].id.id == r.target)
    && Unhindered(n.conns, n.allowed, Attempt(n, t), r.mode)
  }

  /** The mode is allowed, and there is neither this connection nor one that runs the other way. */
  ghost predicate Unhindered(conns: map<Tuple, Connection>, allowed: bv32, k: Tuple, mode: bv32) {
    !(allowed & mode == 0 || k in conns || exists l :: l in conns && l.src == k.dest && l.dest == k.src)
  }

  /** The key under which the next attempt is filed. */
  function Attempt(n: Node, t: NodeId): Tuple
    requires t in n.reqs && n.reqs[t].goodProxies != []
  {
    var r := n.reqs[t];
    Tuple(n.own, r.goodProxies[0].id.id, r.target)
  }

  /** A request that is due makes its attempt if nothing stands in the way, and is given up if anything does. */
  lemma DueStartsOrEnds(n: Node, t: NodeId, now: int)
    requires t in n.reqs && n.reqs[t].state == Ready && n.reqs[t].target == t && t != n.own
    ensures var r, (m, erase) := n.reqs[t], TickRequest(n, t, now);
            && !erase && m.reqs.Keys == n.reqs.Keys
            && if CanStart(n, t) then
                 && m.reqs[t].state == InProgress && m.reqs[t].currentAttempt == r.goodProxies[0].id
                 && m.reqs[t].goodProxies == r.goodProxies[1..]
                 && m.conns.Keys == n.conns.Keys + {Attempt(n, t)} && |m.sent| == |n.sent| + 1
               else
                 && m.reqs[t].state == Done && m.reqs[t].errCode == 0x1_000c
                 && m.conns == n.conns && m.sent == n.sent && m.calls == n.calls
  {
    hide StartAttempt, CanStart, Attempt, FinishRequest, StartRequest;
    var r := n.reqs[t];
    TickReady(n, t, now);
    var m0 := StartRequest(n, t, now).0;
    OutOfProxies(m0.reqs[t], now);
    if r.goodProxies == [] {
      NothingListed(n, t, now);
    } else {
      StartsListed(n, t, now);
    }
  }

  lemma TickReady(n: Node, t: NodeId, now: int)
    requires t in n.reqs && n.reqs[t].state == Ready
    ensures var (m0, ok) := StartRequest(n, t, now);
            TickRequest(n, t, now)
            == (if ok then m0 else m0.(reqs := m0.reqs[t := FinishRequest(m0.reqs[t], ERROR_OUTOFPROXY, now)]), false)
  {
    hide StartRequest, FinishRequest;
  }

  lemma StartsListed(n: Node, t: NodeId, now: int)
    requires t in n.reqs && n.reqs[t].goodProxies != [] && n.reqs[t].target == t && t != n.own
    ensures var r, (m, ok) := n.reqs[t], StartRequest(n, t, now);
            && (ok <==> CanStart(n, t)) && m.reqs == n.reqs[t := PopProxy(r, now)]
            && (ok ==> m.conns.Keys == n.conns.Keys + {Attempt(n, t)} && |m.sent| == |n.sent| + 1)
            && (!ok ==> m.conns == n.conns && m.sent == n.sent && m.calls == n.calls)
  {
    hide StartAttempt, CanStart, Attempt;
    var r := n.reqs[t];
    var n1 := n.(reqs := n.reqs[t := PopProxy(r, now)]);
    var left := r.delay - (now - r.requestTS);
    AttemptExactly(n, n1, t, if left > 0 then left else 0, now);
  }

  lemma OutOfProxies(r: Request, now: int)
    ensures var r' := FinishRequest(r, ERROR_OUTOFPROXY, now); r'.state == Done && r'.errCode == 0x1_000c
  {
  }

  lemma NothingListed(n: Node, t: NodeId, now: int)
    requires t in n.reqs && n.reqs[t].goodProxies == []
    ensures !CanStart(n, t) && StartRequest(n, t, now) == (n, false)
  {
  }

  lemma AttemptExactly(n: Node, n1: Node, t: NodeId, delay: int, now: int)
    requires t in n.reqs && n.reqs[t].goodProxies != [] && n.reqs[t].target == t && t != n.own
    requires n1 == n.(reqs := n1.reqs)
    ensures var r := n.reqs[t];
            var proxy := r.goodProxies[0].id;
            var (m, ok) := StartAttempt(n1, proxy, BdId(n.own, r.localAddr), BdId(t, NO_ADDR), r.mode, delay, now);
            && (CanStart(n, t) <==> ok && (r.mode == 1 <==> proxy.id == t))
            && m.reqs == n1.reqs
            && (ok ==> m.conns.Keys == n.conns.Keys + {Attempt(n, t)} && |m.sent| == |n.sent| + 1)
            && (!ok ==> m == n1)
  {
    hide StartAttempt, Unhindered;
    var r := n.reqs[t];
    AttemptGuard(n1, r.goodProxies[0].id, BdId(n.own, r.localAddr), BdId(t, NO_ADDR), r.mode, delay, now);
  }

  lemma AttemptGuard(n: Node, proxy: BdId, src: BdId, dest: BdId, mode: bv32, delay: int, now: int)
    requires src.id == n.own
    ensures var k := Tuple(n.own, proxy.id, dest.id);
            var (m, ok) := StartAttempt(n, proxy, src, dest, mode, delay, now);
            && (ok <==> Unhindered(n.conns, n.allowed, k, mode))
            && m.reqs == n.reqs
            && (ok ==> m.conns.Keys == n.conns.Keys + {k} && |m.sent| == |n.sent| + 1)
            && (!ok ==> m == n)
  {
    hide ConnectionSetup, ConnectionSetupDirect, Unhindered, FindSimilar;
    var k := Tuple(n.own, proxy.id, dest.id);
    if Hindered(n, k, mode) {
      HinderedIsNot(n, k, mode);
    } else {
      HinderedIsNot(n, k, mode);
    }
  }

  /** The three tests before an attempt, in the order of the program. */
  predicate Hindered(n: Node, k: Tuple, mode: bv32) {
    n.allowed & mode == 0 || k in n.conns || FindSimilar(n.conns, k.dest, k.src)
  }

  lemma HinderedIsNot(n: Node, k: Tuple, mode: bv32)
    ensures Hindered(n, k, mode) == !Unhindered(n.conns, n.allowed, k, mode)
  {
  }

  // ----------------------------------------------------- what the user and others do

  predicate Listed(ps: seq<ProxyId>, id: BdId) {
    exists i :: 0 <= i < |ps| && ps[i].id == id
  }

  /** A list without the first place of `id`. */
  ghost predicate LosesFirst(s: seq<BdId>, s': seq<BdId>, id: BdId) {
    if id in s then exists i: nat :: IsFirst(s, id, i) && s' == s[..i] + s[i + 1..] else s' == s
  }

  ghost predicate IsFirst(s: seq<BdId>, id: BdId, i: nat) {
    i < |s| && id !in s[..i] && s[i] == id
  }

  lemma {:induction false} RemovesAt(s: seq<BdId>, id: BdId, i: nat)
    requires IsFirst(s, id, i)
    ensures RemoveFirst(s, id) == s[..i] + s[i + 1..]
  {
    if i > 0 {
      assert s[0] in s[..i] && s[1..][..i - 1] == s[..i][1..];
      RemovesAt(s[1..], id, i - 1);
      assert s[..i] == [s[0]] + s[1..][..i - 1] && s[1..][i..] == s[i + 1..];
    }
  }

  lemma {:induction false} RemovesNone(s: seq<BdId>, id: BdId)
    requires id !in s
    ensures RemoveFirst(s, id) == s
  {
    if s != [] {
      RemovesNone(s[1..], id);
    }
  }

  lemma {:induction false} FirstPlace(s: seq<BdId>, id: BdId) returns (i: nat)
    requires id in s
    ensures IsFirst(s, id, i)
  {
    i := 0;
    while s[i] != id
      invariant i < |s| && id !in s[..i]
      decreases |s| - i
    {
      assert s[..i + 1] == s[..i] + [s[i]];
      i := i + 1;
    }
  }

  lemma RemovesFirst(s: seq<BdId>, id: BdId)
    ensures LosesFirst(s, RemoveFirst(s, id), id)
  {
    if id in s {
      var i := FirstPlace(s, id);
      RemovesAt(s, id, i);
    } else {
      RemovesNone(s, id);
    }
  }

  /**
   * A proxy that is offered is listed last, unless it is being asked, was tried
   * or is listed already; it need not be looked out for any more.
   */
  lemma OfferedExactly(r: Request, id: BdId)
    ensures var r' := AddGoodProxy(r, id);
            if id == r.currentAttempt || Listed(r.peersTried, id) || Listed(r.goodProxies, id) then r' == r
            else && r' == r.(goodProxies := r'.goodProxies, potentialProxies := r'.potentialProxies)
                 && r'.goodProxies == r.goodProxies + [ProxyId(id, AddGoodProxySource, 0)]
                 && LosesFirst(r.potentialProxies, r'.potentialProxies, id)
  {
    hide LosesFirst;
    RemovesFirst(r.potentialProxies, id);
    assert Holds(r.peersTried, id) == Listed(r.peersTried, id);
    assert Holds(r.goodProxies, id) == Listed(r.goodProxies, id);
  }

  /** Only a peer that is looked out for is offered when it is heard of, and it is looked out for no more. */
  lemma HeardExactly(r: Request, id: BdId)
    ensures if id in r.potentialProxies then
              exists left :: LosesFirst(r.potentialProxies, left, id)
                             && CheckGoodProxy(r, id) == AddGoodProxy(r.(potentialProxies := left), id)
            else CheckGoodProxy(r, id) == r
  {
    hide LosesFirst, AddGoodProxy;
    RemovesFirst(r.potentialProxies, id);
  }

  /**
   * A request is made unless its mode is not allowed, it is for the node itself,
   * or there is one already.  It is due at once, or in ten seconds if it is to
   * go through one of fewer than three proxies.
   */
  lemma AskedExactly(n: Node, local: Addr, t: NodeId, mode: bv32, delay: int, proxies: seq<ProxyId>,
                     potential: seq<BdId>, now: int)
    ensures var (m, ok) := NewRequest(n, local, t, mode, delay, proxies, potential, now);
            if n.allowed & mode == 0 || t == n.own || t in n.reqs then !ok && m == n
            else && ok && t in m.reqs && m == n.(reqs := n.reqs[t := m.reqs[t]])
                 && AskedFor(m.reqs[t], local, t, mode, delay, proxies, potential, now)
  {
    hide AskedFor, FreshRequest, NewRequest;
    FreshIsAskedFor(local, t, mode, delay, proxies, potential, now);
    AskGuard(n, local, t, mode, delay, proxies, potential, now);
  }

  lemma AskGuard(n: Node, local: Addr, t: NodeId, mode: bv32, delay: int, proxies: seq<ProxyId>,
                 potential: seq<BdId>, now: int)
    ensures var (m, ok) := NewRequest(n, local, t, mode, delay, proxies, potential, now);
            if n.allowed & mode == 0 || t == n.own || t in n.reqs then !ok && m == n
            else ok && m == n.(reqs := n.reqs[t := FreshRequest(local, t, mode, delay, proxies, potential, now)])
  {
    hide FreshRequest;
  }

  predicate AskedFor(r: Request, local: Addr, t: NodeId, mode: bv32, delay: int, proxies: seq<ProxyId>,
                     potential: seq<BdId>, now: int)
  {
    && r.target == t && r.localAddr == local && r.mode == mode && r.errCode == 0 && r.recycled == 0
    && r.goodProxies == proxies && r.potentialProxies == potential && r.peersTried == []
    && r.stateTS == r.requestTS == now && r.delay == (if mode == 1 then 0 else delay)
    && r.currentAttempt == NO_ID && r.currentSrcType == SrcUnknown
    && if mode != 1 && |proxies| < 3 then r.state == Paused && r.pauseTS == now + 10 else r.state == Ready
  }

  lemma FreshIsAskedFor(local: Addr, t: NodeId, mode: bv32, delay: int, proxies: seq<ProxyId>, potential: seq<BdId>,
                        now: int)
    ensures AskedFor(FreshRequest(local, t, mode, delay, proxies, potential, now), local, t, mode, delay, proxies,
                     potential, now)
  {
  }

  /** A proxy is offered to a request only if it is known as one of this program, and not as the target itself. */
  lemma LearnedExactly(n: Node, id: BdId, t: NodeId, engine: bool)
    ensures var m := AddPotentialProxy(n, id, t, engine);
            if t in n.reqs && n.reqs[t].mode != 1 && id.id != t && engine
            then m == n.(reqs := n.reqs[t := AddGoodProxy(n.reqs[t], id)]) else m == n
  {
    hide AddGoodProxy;
  }

  /** A request that the user gives up is marked so (13) and stays until the timer has told of it. */
  lemma KilledExactly(n: Node, t: NodeId, now: int)
    ensures var (m, ok) := KillRequest(n, t, now);
            if t !in n.reqs then !ok && m == n
            else ok && m == n.(reqs := n.reqs[t := m.reqs[t]]) && GivenUpFor(n.reqs[t], m.reqs[t], 13, now)
  {
    if t in n.reqs {
      GivenUpWith(n.reqs[t], ERROR_USER, now);
    }
    hide GivenUpFor, FinishRequest;
  }
}
