/** The two proxy lists of a query stay consistent while peers move between them. */
module ProxyLists {
  import opened Ids
  import opened RoutingSpec
  import opened QuerySpec

  /** Most recent first, no two similar. */
  ghost predicate ListOk(list: seq<Peer>, now: int) {
    && (forall i :: 0 <= i < |list| ==> list[i].lastRecv <= now)
    && (forall i, j :: 0 <= i < j < |list| ==> !Similar(list[i].id, list[j].id) && list[i].lastRecv >= list[j].lastRecv)
  }

  ghost predicate Apart(a: seq<Peer>, b: seq<Peer>) {
    forall i, j :: 0 <= i < |a| && 0 <= j < |b| ==> !Similar(a[i].id, b[j].id)
  }

  /** Nobody is in both lists, and the flagged list holds exactly the peers with all required flags. */
  ghost predicate ProxiesOk(ps: Proxies, now: int) {
    && ListOk(ps.unknown, now) && ListOk(ps.flagged, now) && Apart(ps.unknown, ps.flagged)
    && (forall i :: 0 <= i < |ps.flagged| ==> HasAll(ps.flagged[i].flags, REQUIRED_FLAGS))
    && (forall i :: 0 <= i < |ps.unknown| ==> !HasAll(ps.unknown[i].flags, REQUIRED_FLAGS))
  }

  ghost predicate Short(ps: Proxies) {
    |ps.unknown| <= MAX_POTENTIAL_PROXIES && |ps.flagged| <= MAX_POTENTIAL_PROXIES
  }

  predicate Unlike(list: seq<Peer>, id: BdId) {
    forall i :: 0 <= i < |list| ==> !Similar(id, list[i].id)
  }

  lemma RemoveKeeps(list: seq<Peer>, k: nat, now: int)
    requires ListOk(list, now) && k < |list|
    ensures ListOk(RemoveAt(list, k), now) && Unlike(RemoveAt(list, k), list[k].id)
  {
    RemoveAtIndex(list, k);
  }

  lemma PushKeeps(list: seq<Peer>, p: Peer, now: int)
    requires ListOk(list, now) && now <= p.lastRecv && Unlike(list, p.id)
    ensures ListOk([p] + list, p.lastRecv)
  {
  }

  lemma PushFrontKeeps(ps: Proxies, p: Peer, now: int)
    requires ProxiesOk(ps, now) && now <= p.lastRecv && Unlike(ps.unknown, p.id) && Unlike(ps.flagged, p.id)
    ensures ProxiesOk(PushFront(ps, p), p.lastRecv)
  {
    if HasAll(p.flags, REQUIRED_FLAGS) {
      PushKeeps(ps.flagged, p, now);
    } else {
      PushKeeps(ps.unknown, p, now);
    }
  }

  lemma UnlikeSimilar(list: seq<Peer>, a: BdId, b: BdId)
    requires Unlike(list, a) && Similar(a, b)
    ensures Unlike(list, b)
  {
  }

  lemma TouchStays(p: Peer, id: BdId, mode: bv32, now: int)
    ensures Similar(TouchProxy(p, id, mode, now).id, p.id) && TouchProxy(p, id, mode, now).lastRecv == now
  {
  }

  /** What is left after one peer was taken out of its list, and that peer is unlike it. */
  lemma TakeOutKeeps(ps: Proxies, inFlagged: bool, k: nat, now: int)
    requires ProxiesOk(ps, now) && k < |if inFlagged then ps.flagged else ps.unknown|
    ensures var list := if inFlagged then ps.flagged else ps.unknown;
            var left := if inFlagged then ps.(flagged := RemoveAt(list, k)) else ps.(unknown := RemoveAt(list, k));
            ProxiesOk(left, now) && Unlike(left.unknown, list[k].id) && Unlike(left.flagged, list[k].id)
  {
    var list := if inFlagged then ps.flagged else ps.unknown;
    RemoveKeeps(list, k, now);
    RemoveAtIndex(list, k);
  }

  /** The move within or between the lists keeps them consistent. */
  lemma UpdateListKeeps(ps: Proxies, inFlagged: bool, id: BdId, mode: bv32, now: int, ts: int)
    requires ProxiesOk(ps, now) && now <= ts
    ensures ProxiesOk(UpdateProxyList(ps, inFlagged, id, mode, ts).0, ts)
  {
    var list := if inFlagged then ps.flagged else ps.unknown;
    var k := FindSimilar(list, id);
    if k < |list| {
      var left := if inFlagged then ps.(flagged := RemoveAt(list, k)) else ps.(unknown := RemoveAt(list, k));
      var p := TouchProxy(list[k], id, mode, ts);
      TakeOutKeeps(ps, inFlagged, k, now);
      TouchStays(list[k], id, mode, ts);
      UnlikeSimilar(left.unknown, list[k].id, p.id);
      UnlikeSimilar(left.flagged, list[k].id, p.id);
      PushFrontKeeps(left, p, now);
    }
  }

  lemma UpdateBothKeeps(ps: Proxies, id: BdId, mode: bv32, now: int, ts: int)
    requires ProxiesOk(ps, now) && now <= ts
    ensures var (qs, found) := UpdateBoth(ps, id, mode, ts);
            ProxiesOk(qs, ts) && (!found ==> qs == ps && Unlike(ps.unknown, id) && Unlike(ps.flagged, id))
  {
    UpdateListKeeps(ps, false, id, mode, now, ts);
    UpdateListKeeps(ps, true, id, mode, now, ts);
  }

  lemma TrimKeeps(ps: Proxies, now: int)
    requires ProxiesOk(ps, now)
    ensures ProxiesOk(TrimProxies(ps), now) && Short(TrimProxies(ps))
  {
  }

  lemma AddProxyKeeps(ps: Proxies, src: BdId, mode: bv32, now: int, ts: int)
    requires ProxiesOk(ps, now) && now <= ts
    ensures ProxiesOk(AddProxy(ps, src, mode, ts), ts) && Short(AddProxy(ps, src, mode, ts))
  {
    UpdateBothKeeps(ps, src, mode, now, ts);
    var (qs, found) := UpdateBoth(ps, src, mode, ts);
    if found {
      TrimKeeps(qs, ts);
    } else {
      PushFrontKeeps(qs, NewProxy(src, mode, ts), now);
      TrimKeeps(PushFront(qs, NewProxy(src, mode, ts)), ts);
    }
  }

  // -------------------------------------------------------------------- runs

  datatype Op = Heard(id: BdId, mode: bv32, ts: int) | Offered(src: BdId, mode: bv32, ts: int)

  function Do(ps: Proxies, op: Op): Proxies {
    match op
    case Heard(id, mode, ts) => UpdateProxy(ps, id, mode, ts)
    case Offered(src, mode, ts) => AddProxy(ps, src, mode, ts)
  }

  function Play(ops: seq<Op>): Proxies {
    if ops == [] then Proxies([], []) else Do(Play(ops[..|ops| - 1]), ops[|ops| - 1])
  }

  /** After every sequence of updates under a clock that does not go back the lists are consistent and short. */
  lemma {:induction false} AlwaysConsistent(ops: seq<Op>, now: int)
    requires forall i, j :: 0 <= i < j < |ops| ==> ops[i].ts <= ops[j].ts
    requires forall i :: 0 <= i < |ops| ==> ops[i].ts <= now
    ensures ProxiesOk(Play(ops), now) && Short(Play(ops))
  {
    if ops != [] {
      var n := |ops| - 1;
      var ps, op := Play(ops[..n]), ops[n];
      AlwaysConsistent(ops[..n], op.ts);
      if op.Heard? {
        UpdateBothKeeps(ps, op.id, op.mode, op.ts, op.ts);
        TrimKeeps(UpdateBoth(ps, op.id, op.mode, op.ts).0, op.ts);
      } else {
        AddProxyKeeps(ps, op.src, op.mode, op.ts, op.ts);
      }
    }
  }

  // ------------------------------------------------------------ nobody is lost

  /** How many entries are similar to `id`. */
  function Count(list: seq<Peer>, id: BdId): nat {
    if list == [] then 0 else (if Similar(id, list[0].id) then 1 else 0) + Count(list[1..], id)
  }

  lemma {:induction false} CountConcat(a: seq<Peer>, b: seq<Peer>, id: BdId)
    ensures Count(a + b, id) == Count(a, id) + Count(b, id)
  {
    if a == [] {
      assert a + b == b;
    } else {
      CountConcat(a[1..], b, id);
      assert (a + b)[1..] == a[1..] + b;
    }
  }

  lemma CountRemove(list: seq<Peer>, k: nat, id: BdId)
    requires k < |list|
    ensures Count(list, id) == Count(RemoveAt(list, k), id) + if Similar(id, list[k].id) then 1 else 0
  {
    assert list == list[..k] + list[k..];
    CountConcat(list[..k], list[k..], id);
    CountConcat(list[..k], list[k + 1..], id);
  }

  /** A move loses no proxy and invents none, also when it stays within one list. */
  lemma MoveConserves(ps: Proxies, inFlagged: bool, id: BdId, mode: bv32, ts: int, x: BdId)
    ensures var qs := UpdateProxyList(ps, inFlagged, id, mode, ts).0;
            Count(qs.unknown, x) + Count(qs.flagged, x) == Count(ps.unknown, x) + Count(ps.flagged, x)
  {
    var list := if inFlagged then ps.flagged else ps.unknown;
    var k := FindSimilar(list, id);
    if k < |list| {
      var left := if inFlagged then ps.(flagged := RemoveAt(list, k)) else ps.(unknown := RemoveAt(list, k));
      var p := TouchProxy(list[k], id, mode, ts);
      CountRemove(list, k, x);
      TouchStays(list[k], id, mode, ts);
      CountConcat([p], left.unknown, x);
      CountConcat([p], left.flagged, x);
    }
  }
}
