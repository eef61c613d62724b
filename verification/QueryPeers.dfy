/**
 * What a message, or being named in an answer, does to the potential peers and
 * the proxies of a query: which entry changes how, and who is pinged.  The
 * flags and periods are written as the numbers they have in the program.
 */
module QueryPeers {
  import opened Ids
  import opened Ordered
  import opened RoutingSpec
  import opened QuerySpec
  import opened QueryInvariant
  import opened QueryAnswers
  import opened IterativeQuery
  import opened ProxyLists

  // ---------------------------------------------------------- potential peers

  /** The flags of the message are added. */
  predicate Gains(flags: bv32, after: bv32, mode: bv32) {
    after == flags | mode
  }

  /** A peer that was heard from directly is known by its new port, and is unstable if that has changed. */
  predicate TakesPort(was: BdId, extra: bv32, now': BdId, extra': bv32, id: BdId, mode: bv32) {
    && now' == (if mode != 0 then id else was)
    && extra' == (if mode != 0 && id.addr.port != was.addr.port then extra | 1 else extra)
  }

  /**
   * The entry `p` after its peer was named in an answer, which is worth a ping
   * every five minutes, or has sent a message itself.
   */
  predicate HeardOf(p: Peer, q: Peer, id: BdId, mode: bv32, how: AddType, now: int, ping: bool) {
    && Gains(p.flags, q.flags, mode) && q.lastRecv == now && q.found == p.found
    && match how
       case FindNodeResponse =>
         && ping == (now > p.lastSend + 300) && q.lastSend == (if ping then now else p.lastSend)
         && q.id == p.id && q.extra == p.extra
       case PeerMessage => !ping && q.lastSend == p.lastSend && TakesPort(p.id, p.extra, q.id, q.extra, id, mode)
  }

  lemma TouchedIsHeardOf(p: Peer, id: BdId, mode: bv32, how: AddType, now: int)
    requires Similar(id, p.id)
    ensures var (q, ping) := TouchPotential(p, id, mode, how, now); HeardOf(p, q, id, mode, how, now, ping)
  {
    hide Gains, TakesPort, UpdatePort, Join;
    var q := p.(flags := Join(p.flags, mode), lastRecv := now);
    JoinedGains(p, mode);
    PortIsTaken(q, id, mode);
  }

  lemma JoinedGains(p: Peer, mode: bv32)
    ensures Gains(p.flags, Join(p.flags, mode), mode)
  {
  }

  lemma PortIsTaken(p: Peer, id: BdId, mode: bv32)
    requires Similar(id, p.id)
    ensures var q := UpdatePort(p, id, mode); TakesPort(p.id, p.extra, q.id, q.extra, id, mode)
    ensures var q := UpdatePort(p, id, mode); q == p.(id := q.id, extra := q.extra)
  {
  }

  /** A potential peer that is known already changes in its own entry only. */
  lemma KnownPotential(p: Ranked, closest: Ranked, target: NodeId, id: BdId, mode: bv32, how: AddType, now: int, i: nat)
    requires RankedOk(p, target) && i < |p| && Similar(id, p[i].1.id)
    ensures IsKnown(p, target, id)
    ensures var (t, ping) := UpdatePotential(p, closest, target, id, mode, how, now);
            && |t| == |p| && t == p[i := (p[i].0, t[i].1)]
            && HeardOf(p[i].1, t[i].1, id, mode, how, now, ping)
  {
    hide Less, LowerBound, UpperBound, FindIn, TouchPotential, HeardOf, RankedOk;
    FoundOnlyOnce(p, target, id, i);
    TouchedIsHeardOf(p[i].1, id, mode, how, now);
  }

  /** The entry made for a potential peer that was not listed. */
  function NewEntry(id: BdId, mode: bv32, how: AddType, now: int): Peer {
    Peer(id, mode, if how == FindNodeResponse then now else 0, now, now, 0)
  }

  /**
   * An unknown one is put in its place and is worth a ping.  Of more than ten
   * those beyond the last of the closest peers go, farthest first, down to ten.
   */
  lemma NewPotential(p: Ranked, closest: Ranked, target: NodeId, id: BdId, mode: bv32, how: AddType, now: int)
    returns (grown: Ranked)
    requires RankedOk(p, target) && !HasPeer(p, id) && (closest != [] || |p| < 10)
    ensures multiset(grown) == multiset(p) + multiset{(Dist(target, id.id), NewEntry(id, mode, how, now))}
    ensures RankedOk(grown, target) && |grown| == |p| + 1
    ensures var (t, ping) := UpdatePotential(p, closest, target, id, mode, how, now);
            && ping && |t| <= |grown| && t == grown[..|t|]
            && (|t| < |grown| ==> |t| >= 10)
            && forall i :: 10 <= i < |grown| ==> (i < |t| <==> !Less(closest[|closest| - 1].0, grown[i].0))
  {
    hide Less, Insert, TrimToClosest, LowerBound, UpperBound, RankedOk, HasPeer;
    var e := NewEntry(id, mode, how, now);
    grown := Insert(p, Dist(target, id.id), e);
    Unknown(p, target, id);
    UnlikeAll(p, id);
    InsertKeeps(p, target, e);
    InsertAdds(p, Dist(target, id.id), e);
    if |p| >= 10 {
      CutBeyond(grown, target, closest[|closest| - 1].0);
    }
  }

  lemma UnlikeAll(p: Ranked, id: BdId)
    requires !HasPeer(p, id)
    ensures forall i :: 0 <= i < |p| ==> !Similar(id, p[i].1.id)
  {
  }

  lemma Unknown(p: Ranked, target: NodeId, id: BdId)
    requires RankedOk(p, target) && !HasPeer(p, id)
    ensures !IsKnown(p, target, id)
    ensures var d := Dist(target, id.id); FindIn(p, LowerBound(p, d), UpperBound(p, d), id) >= UpperBound(p, d)
  {
    hide Less, LowerBound, UpperBound;
  }

  lemma CutBeyond(g: Ranked, target: NodeId, last: Metric)
    requires RankedOk(g, target) && |g| > 10
    ensures var t := TrimToClosest(g, last);
            && 10 <= |t| <= |g| && t == g[..|t|]
            && forall i :: 10 <= i < |g| ==> (i < |t| <==> !Less(last, g[i].0))
  {
    hide TrimToClosest;
    TrimIsFront(g, last);
    var t := TrimToClosest(g, last);
    forall i | 10 <= i < |t|
      ensures !Less(last, g[i].0)
    {
      assert t[|t| - 1] == g[|t| - 1];
      LessIsStrictTotal(last, g[i].0, g[|t| - 1].0);
      LessIsStrictTotal(g[|t| - 1].0, g[i].0, last);
    }
  }

  /** An idle query forgets, once a minute, the peers not heard of for its retry time and ten seconds more. */
  lemma {:induction false} FreshExactly(p: Ranked, idle: bool, cleanTS: int, retry: int, now: int, e: (Metric, Peer))
    ensures e in LeftPotential(p, idle, cleanTS, retry, now)
            <==> e in p && !(idle && now >= cleanTS + 60 && now > e.1.lastRecv + retry + 10)
  {
    FreshHolds(p, retry + 10, now, e);
  }

  lemma {:induction false} FreshHolds(p: Ranked, timeout: int, now: int, e: (Metric, Peer))
    ensures e in Fresh(p, timeout, now) <==> e in p && now <= e.1.lastRecv + timeout
  {
    if p != [] {
      var n := |p| - 1;
      FreshHolds(p[..n], timeout, now, e);
      assert p == p[..n] + [p[n]];
    }
  }

  // ------------------------------------------------------------------ proxies

  /** The entry of a proxy that was heard from, and the list it belongs to (flag 0x200 asks for this program). */
  predicate ProxyHeard(p: Peer, q: Peer, id: BdId, mode: bv32, now: int) {
    && Gains(p.flags, q.flags, mode) && q.lastRecv == now && q.lastSend == p.lastSend && q.found == p.found
    && TakesPort(p.id, p.extra, q.id, q.extra, id, mode)
  }

  predicate IsFlagged(p: Peer) {
    p.flags & 0x200 == 0x200
  }

  lemma TouchedIsProxyHeard(p: Peer, id: BdId, mode: bv32, now: int)
    requires Similar(id, p.id)
    ensures ProxyHeard(p, TouchProxy(p, id, mode, now), id, mode, now)
  {
  }

  lemma FlaggedIsAll(p: Peer)
    ensures HasAll(p.flags, REQUIRED_FLAGS) == IsFlagged(p)
  {
  }

  /** The first ten. */
  function Ten(s: seq<Peer>): seq<Peer> {
    if |s| <= 10 then s else s[..10]
  }

  /** Both lists after `q` was put in front of the one it belongs to. */
  predicate InFront(before: Proxies, q: Peer, after: Proxies) {
    after == if IsFlagged(q) then Proxies(Ten(before.unknown), Ten([q] + before.flagged))
             else Proxies(Ten([q] + before.unknown), Ten(before.flagged))
  }

  /** Both lists without the k-th entry of one. */
  function TakenOut(ps: Proxies, inFlagged: bool, k: nat): Proxies
    requires k < |if inFlagged then ps.flagged else ps.unknown|
  {
    if inFlagged then ps.(flagged := ps.flagged[..k] + ps.flagged[k + 1..])
    else ps.(unknown := ps.unknown[..k] + ps.unknown[k + 1..])
  }

  lemma PushedInFront(before: Proxies, q: Peer)
    ensures InFront(before, q, QuerySpec.TrimProxies(PushFront(before, q)))
  {
    hide HasAll, IsFlagged;
    FlaggedIsAll(q);
  }

  lemma OnlyIn(ps: Proxies, id: BdId, inFlagged: bool, k: nat, now: int)
    requires ProxiesOk(ps, now) && k < |if inFlagged then ps.flagged else ps.unknown|
    requires Similar(id, (if inFlagged then ps.flagged else ps.unknown)[k].id)
    ensures FindSimilar(if inFlagged then ps.flagged else ps.unknown, id) == k
    ensures inFlagged ==> FindSimilar(ps.unknown, id) == |ps.unknown|
  {
  }

  /** A message of a known proxy moves it to the front of the list it belongs to, and leaves the others in order. */
  lemma KnownProxy(ps: Proxies, id: BdId, inFlagged: bool, k: nat, mode: bv32, ts: int, now: int)
    returns (q: Peer)
    requires ProxiesOk(ps, ts) && k < |if inFlagged then ps.flagged else ps.unknown|
    requires Similar(id, (if inFlagged then ps.flagged else ps.unknown)[k].id)
    ensures ProxyHeard((if inFlagged then ps.flagged else ps.unknown)[k], q, id, mode, now)
    ensures InFront(TakenOut(ps, inFlagged, k), q, UpdateProxy(ps, id, mode, now))
    ensures QuerySpec.AddProxy(ps, id, mode, now) == UpdateProxy(ps, id, mode, now)
  {
    hide ProxiesOk, TouchProxy, HasAll, ProxyHeard, QuerySpec.TrimProxies, PushFront;
    var p := (if inFlagged then ps.flagged else ps.unknown)[k];
    q := TouchProxy(p, id, mode, now);
    OnlyIn(ps, id, inFlagged, k, ts);
    TouchedIsProxyHeard(p, id, mode, now);
    PushedInFront(TakenOut(ps, inFlagged, k), q);
  }

  /** One that is not known is entered only for naming the target; a message of it changes nothing. */
  lemma UnknownProxy(ps: Proxies, id: BdId, mode: bv32, now: int)
    requires Unlike(ps.unknown, id) && Unlike(ps.flagged, id)
    ensures UpdateProxy(ps, id, mode, now) == Proxies(Ten(ps.unknown), Ten(ps.flagged))
    ensures InFront(ps, Peer(id, mode, 0, now, now, 0), QuerySpec.AddProxy(ps, id, mode, now))
  {
    hide HasAll, PushFront, InFront;
    assert FindSimilar(ps.unknown, id) == |ps.unknown| && FindSimilar(ps.flagged, id) == |ps.flagged|;
    PushedInFront(ps, Peer(id, mode, 0, now, now, 0));
  }
}
