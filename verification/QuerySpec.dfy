/** An iterative query: its list of closest peers, its potential peers and its proxies. */
module QuerySpec {
  import opened Ids
  import opened Ordered
  import opened RoutingSpec

  const EXPECTED_REPLY := 10
  const NUM_QUERY_NODES: nat := 10
  const CLOSEST_LIST_SIZE: nat := 15
  const MIN_PING_POTENTIAL_PERIOD := 300
  const MAX_POTENTIAL_PROXIES: nat := 10

  const RECV_NODES: bv32 := 4
  const REQUIRED_FLAGS: bv32 := 0x200

  type Ranked = seq<(Metric, Peer)>

  /** It was asked, has not answered since, and had the time to. */
  predicate Unanswered(p: Peer, ts: int) {
    p.lastSend != 0 && p.lastRecv < p.lastSend && ts - p.lastSend > EXPECTED_REPLY
  }

  function LowerBound(s: Ranked, key: Metric): (l: nat)
    ensures l <= |s|
  {
    if s == [] then 0 else if Less(s[0].0, key) then 1 + LowerBound(s[1..], key) else 0
  }

  function Answering(s: Ranked, ts: int): Ranked {
    if s == [] then []
    else Answering(s[..|s| - 1], ts) + if Unanswered(s[|s| - 1].1, ts) then [] else [s[|s| - 1]]
  }

  /** The first entry in s[i..u] similar to `id`, or `u`. */
  function FindIn(s: Ranked, i: nat, u: nat, id: BdId): (k: nat)
    requires u <= |s|
    ensures i <= k && (k < u ==> Similar(id, s[k].1.id)) && (i <= u ==> k <= u)
    ensures forall j :: i <= j < k && j < u ==> !Similar(id, s[j].1.id)
    decreases u - i
  {
    if i >= u || Similar(id, s[i].1.id) then i else FindIn(s, i + 1, u, id)
  }

  /** Takes over the port of a peer that was heard from directly. */
  function UpdatePort(p: Peer, id: BdId, mode: bv32): Peer {
    var (newId, moved) := UpdateSimilar(p.id, id);
    if mode == 0 then p else p.(id := newId, extra := if moved then Join(p.extra, EX_UNSTABLE) else p.extra)
  }

  function TouchClosest(p: Peer, id: BdId, mode: bv32, ts: int): Peer {
    var q := UpdatePort(p, id, mode);
    if HasAny(mode, RECV_NODES) then q.(lastRecv := ts, flags := Join(q.flags, mode)) else q
  }

  function NewClosest(id: BdId, mode: bv32, ts: int): Peer {
    Peer(id, mode, 0, if HasAny(mode, RECV_NODES) then ts else 0, ts, 0)
  }

  function Front(s: Ranked, n: nat): Ranked {
    if |s| <= n then s else s[..n]
  }

  function AddClosest(c: Ranked, target: NodeId, id: BdId, mode: bv32, ts: int): (Ranked, bool) {
    var dist := Dist(target, id.id);
    var l, u := LowerBound(c, dist), UpperBound(c, dist);
    var closer := Answering(c[..u], ts);
    if |closer| >= CLOSEST_LIST_SIZE then (c, false)
    else
      var k := FindIn(c, l, u, id);
      if k < u then (c[k := (c[k].0, TouchClosest(c[k].1, id, mode, ts))], true)
      else (Insert(Front(closer + c[u..], CLOSEST_LIST_SIZE - 1), dist, NewClosest(id, mode, ts)), true)
  }

  // ---------------------------------------------------------- potential peers

  datatype AddType = PeerMessage | FindNodeResponse

  function TouchPotential(p: Peer, id: BdId, mode: bv32, how: AddType, now: int): (Peer, bool) {
    var q := p.(flags := Join(p.flags, mode), lastRecv := now);
    if how.FindNodeResponse? then
      if now - q.lastSend > MIN_PING_POTENTIAL_PERIOD then (q.(lastSend := now), true) else (q, false)
    else (UpdatePort(q, id, mode), false)
  }

  /** Drops peers from the end that are farther than the last of the closest ones, down to ten. */
  function TrimToClosest(p: Ranked, last: Metric): Ranked {
    if |p| > NUM_QUERY_NODES && Less(last, p[|p| - 1].0) then TrimToClosest(p[..|p| - 1], last) else p
  }

  /** A similar peer is in the list, at the distance of `id`. */
  predicate IsKnown(p: Ranked, target: NodeId, id: BdId) {
    var u := UpperBound(p, Dist(target, id.id));
    FindIn(p, LowerBound(p, Dist(target, id.id)), u, id) < u
  }

  /** Not beyond a full closest list, and not in it. */
  predicate Worthy(c: Ranked, target: NodeId, id: BdId) {
    !(LowerBound(c, Dist(target, id.id)) == |c| >= NUM_QUERY_NODES) && !IsKnown(c, target, id)
  }

  function UpdatePotential(p: Ranked, closest: Ranked, target: NodeId, id: BdId, mode: bv32, how: AddType,
                           now: int): (Ranked, bool)
    requires closest != [] || |p| < NUM_QUERY_NODES || IsKnown(p, target, id)
  {
    var dist := Dist(target, id.id);
    var l, u := LowerBound(p, dist), UpperBound(p, dist);
    var k := FindIn(p, l, u, id);
    if k < u then
      var (q, ping) := TouchPotential(p[k].1, id, mode, how, now);
      (p[k := (p[k].0, q)], ping)
    else
      var peer := Peer(id, mode, if how.FindNodeResponse? then now else 0, now, now, 0);
      var grown := Insert(p, dist, peer);
      (if |p| + 1 <= NUM_QUERY_NODES then grown else TrimToClosest(grown, closest[|closest| - 1].0), true)
  }

  // ------------------------------------------------------------------ proxies

  /** Most recently heard first. */
  datatype Proxies = Proxies(unknown: seq<Peer>, flagged: seq<Peer>)

  function TouchProxy(p: Peer, id: BdId, mode: bv32, now: int): Peer {
    var q := UpdatePort(p, id, mode);
    q.(flags := Join(q.flags, mode), lastRecv := now)
  }

  function PushFront(ps: Proxies, p: Peer): Proxies {
    if HasAll(p.flags, REQUIRED_FLAGS) then ps.(flagged := [p] + ps.flagged) else ps.(unknown := [p] + ps.unknown)
  }

  /** The move may go from a list to the front of that same list. */
  function UpdateProxyList(ps: Proxies, inFlagged: bool, id: BdId, mode: bv32, now: int): (Proxies, bool) {
    var list := if inFlagged then ps.flagged else ps.unknown;
    var i := FindSimilar(list, id);
    if i == |list| then (ps, false)
    else
      var rest := RemoveAt(list, i);
      var left := if inFlagged then ps.(flagged := rest) else ps.(unknown := rest);
      (PushFront(left, TouchProxy(list[i], id, mode, now)), true)
  }

  function FrontPeers(s: seq<Peer>, n: nat): seq<Peer> {
    if |s| <= n then s else s[..n]
  }

  function TrimProxies(ps: Proxies): Proxies {
    Proxies(FrontPeers(ps.unknown, MAX_POTENTIAL_PROXIES), FrontPeers(ps.flagged, MAX_POTENTIAL_PROXIES))
  }

  function UpdateBoth(ps: Proxies, id: BdId, mode: bv32, now: int): (Proxies, bool) {
    var (p1, found) := UpdateProxyList(ps, false, id, mode, now);
    if found then (p1, true) else UpdateProxyList(p1, true, id, mode, now)
  }

  function UpdateProxy(ps: Proxies, id: BdId, mode: bv32, now: int): Proxies {
    TrimProxies(UpdateBoth(ps, id, mode, now).0)
  }

  function AddProxy(ps: Proxies, src: BdId, mode: bv32, now: int): Proxies {
    var (p1, found) := UpdateBoth(ps, src, mode, now);
    TrimProxies(if found then p1 else PushFront(p1, NewProxy(src, mode, now)))
  }

  function NewProxy(src: BdId, mode: bv32, now: int): Peer {
    Peer(src, mode, 0, now, now, 0)
  }
}
