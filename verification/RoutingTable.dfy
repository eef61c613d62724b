/** The routing table as the program updates it in place, proved against RoutingSpec. */
module RoutingTable {
  import opened Ids
  import opened Ordered
  import opened RoutingSpec
  import opened RoutingSearch
  import opened RoutingInvariant
  import opened RoutingScan
  import Size = NetworkSize

  lemma {:induction false} FindSimilarFrom(b: Bucket, id: BdId, i: nat)
    requires i <= |b| && forall j :: 0 <= j < i ==> !Similar(id, b[j].id)
    ensures i < |b| && Similar(id, b[i].id) ==> FindSimilar(b, id) == i
    ensures i == |b| ==> FindSimilar(b, id) == |b|
  {
  }

  lemma FindFlagsFrom(b: Bucket, flags: bv32, i: nat)
    requires i <= |b| && forall j :: 0 <= j < i ==> b[j].flags != flags
    ensures i < |b| && b[i].flags == flags ==> FindFlags(b, flags) == i
    ensures i == |b| ==> FindFlags(b, flags) == |b|
  {
  }

  function Sizes(bs: seq<Bucket>): seq<nat> {
    seq(|bs|, i requires 0 <= i < |bs| => |bs[i]|)
  }

  class Space {
    const own: NodeId
    const nodesPerBucket: nat
    var buckets: seq<Bucket>
    var attachTS: int
    var attachedFlags: bv32
    var attachedCount: nat

    constructor (own: NodeId, nodesPerBucket: nat)
      requires nodesPerBucket > 0
      ensures State() == StartTable(own, nodesPerBucket)
      ensures TableOk(State(), 0)
    {
      this.own, this.nodesPerBucket := own, nodesPerBucket;
      buckets := seq(KEY_BITS, i => []);
      attachTS, attachedFlags, attachedCount := 0, 0, 0;
    }

    function State(): Table
      reads this
    {
      Table(own, nodesPerBucket, buckets, attachTS, attachedFlags, attachedCount)
    }

    // ---------------------------------------------------------------- adding

    /** Looks for a similar entry and, on the way, for the lowest flags. */
    static method Look(b: Bucket, id: BdId, flags: bv32) returns (at: nat, minScore: bv32)
      ensures at == FindSimilar(b, id)
      ensures at == |b| ==> minScore == MinFlags(b, flags)
    {
      hide Num, Similar;
      minScore := flags;
      for i := 0 to |b|
        invariant forall j :: 0 <= j < i ==> !Similar(id, b[j].id)
        invariant minScore == MinFlags(b[..i], flags)
      {
        if Similar(id, b[i].id) {
          FindSimilarFrom(b, id, i);
          return i, minScore;
        }
        if Num(b[i].flags) < Num(minScore) {
          minScore := b[i].flags;
        }
        assert b[..i + 1][..i] == b[..i];
      }
      FindSimilarFrom(b, id, |b|);
      assert b[..|b|] == b;
      at := |b|;
    }

    /** Drops the first entry with these flags. */
    static method DropFirst(b: Bucket, flags: bv32) returns (c: Bucket, dropped: bool)
      ensures var i := FindFlags(b, flags);
              dropped == (i < |b|) && c == if i < |b| then RemoveAt(b, i) else b
    {
      for i := 0 to |b|
        invariant forall j :: 0 <= j < i ==> b[j].flags != flags
      {
        if b[i].flags == flags {
          FindFlagsFrom(b, flags, i);
          return RemoveAt(b, i), true;
        }
      }
      FindFlagsFrom(b, flags, |b|);
      c, dropped := b, false;
    }

    static method AddTo(b: Bucket, size: nat, id: BdId, flags: bv32, ts: int) returns (c: Bucket, added: bool)
      requires size > 0
      ensures (c, added) == AddToBucket(b, size, id, flags, ts)
    {
      c, added := b, false;
      var at, minScore := Look(b, id, flags);
      if at < |b| {
        var peer := b[at];
        c := RemoveAt(b, at);
        var (newId, moved) := UpdateSimilar(peer.id, id);
        peer := peer.(lastRecv := ts, flags := Join(peer.flags, flags), id := newId);
        if moved {
          peer := peer.(extra := Join(peer.extra, EX_UNSTABLE));
        }
        return c + [peer], true;
      }
      if |b| < size {
        added := true;
      } else if ts - b[0].lastRecv > MAX_RECV_PERIOD {
        c := RemoveAt(b, 0);
        added := true;
      } else if Num(flags) > Num(minScore) {
        c, added := DropFirst(b, minScore);
      }
      if added {
        c := c + [NewPeer(id, flags, ts)];
      }
    }

    method AddPeer(id: BdId, flags: bv32, ts: int) returns (added: bool)
      requires |buckets| == KEY_BITS && nodesPerBucket > 0
      modifies this`buckets
      ensures (State(), added) == RoutingSpec.AddPeer(old(State()), Place(old(State()), id), id, flags, ts)
      ensures forall now :: now <= ts && TableOk(old(State()), now) ==> TableOk(State(), ts)
    {
      ghost var was := State();
      var i := BucketDistance(Dist(own, id.id));
      var b: Bucket;
      b, added := AddTo(buckets[i], nodesPerBucket, id, flags, ts);
      buckets := buckets[i := b];
      Kept(was, Add(id, flags), ts);
    }

    static lemma Kept(t: Table, op: Op, ts: int)
      requires |t.buckets| == KEY_BITS && t.nodesPerBucket > 0
      ensures forall now :: now <= ts && TableOk(t, now) ==> TableOk(Do(t, op, ts), ts)
    {
      forall now | now <= ts && TableOk(t, now)
        ensures TableOk(Do(t, op, ts), ts)
      {
        DoKeeps(t, op, now, ts);
      }
    }

    // -------------------------------------------------------------- flagging

    method FlagPeer(id: BdId, flags: bv32, extra: bv32)
      requires |buckets| == KEY_BITS
      modifies this`buckets
      ensures State() == RoutingSpec.FlagPeer(old(State()), Place(old(State()), id), id, flags, extra)
    {
      var i := BucketDistance(Dist(own, id.id));
      var b := buckets[i];
      for j := 0 to |b|
        invariant |b| == |buckets[i]| && buckets == old(buckets)
        invariant forall k :: 0 <= k < |b| ==>
          b[k] == if k < j then FlagBucket(buckets[i], id, flags, extra)[k] else buckets[i][k]
      {
        if Similar(id, b[j].id) {
          b := b[j := b[j].(flags := Join(b[j].flags, flags), extra := Join(b[j].extra, extra))];
        }
      }
      assert b == FlagBucket(buckets[i], id, flags, extra);
      buckets := buckets[i := b];
    }

    static method ClearFlags(b: Bucket, flags: bv32) returns (c: Bucket, count: nat)
      ensures c == ClearBucket(b, flags)
      ensures count == |WithAny(b, flags)|
    {
      c, count := b, 0;
      ghost var hit: set<int> := {};
      for j := 0 to |b|
        invariant |c| == |b| && count == |hit|
        invariant hit == set k | 0 <= k < j && HasAny(b[k].flags, flags)
        invariant forall k :: 0 <= k < |b| ==> c[k] == if k < j then ClearBucket(b, flags)[k] else b[k]
      {
        if HasAny(c[j].flags, flags) {
          count := count + 1;
          hit := hit + {j};
          c := c[j := c[j].(flags := Without(c[j].flags, flags))];
        } else {
          WithoutNone(c[j].flags, flags);
        }
      }
    }

    static lemma WithoutNone(flags: bv32, mask: bv32)
      requires !HasAny(flags, mask)
      ensures Without(flags, mask) == flags
    {
    }

    method CleanNodeFlags(flags: bv32) returns (count: nat)
      modifies this`buckets
      ensures State() == CleanFlags(old(State()), flags)
      ensures count == CountWithAny(old(buckets), flags)
    {
      ghost var was := buckets;
      count := 0;
      var i := 0;
      while i < |buckets|
        invariant 0 <= i <= |buckets| == |was|
        invariant forall k :: 0 <= k < |buckets| ==>
          buckets[k] == if k < i then ClearBucket(was[k], flags) else was[k]
        invariant count == CountWithAny(was[..i], flags)
      {
        var b, n := ClearFlags(buckets[i], flags);
        assert was[..i + 1][..i] == was[..i];
        count := count + n;
        buckets := buckets[i := b];
        i := i + 1;
      }
      assert was[..i] == was;
    }

    // -------------------------------------------------------------- scanning

    /** The body of the scan loop for one entry. */
    static method ScanOne(peer: Peer, attach: bool, ts: int) returns (p: Peer, ping: bool, attached: bool,
                          discard: bool)
      ensures ping == PingDue(peer, attach, ts) && attached == (attach && HasAny(peer.extra, EX_ATTACHED))
      ensures p == (if ping then peer.(lastSend := ts) else peer) && discard == Dead(peer, ts)
    {
      p, ping, attached, discard := peer, false, false, false;
      var added := false;
      if attach {
        if HasAny(p.extra, EX_ATTACHED) {
          if ts - p.lastSend > ATTACHED_SEND_PERIOD && ts - p.lastRecv > ATTACHED_SEND_PERIOD {
            ping := true;
            p := p.(lastSend := ts);
            added := true;
          }
          attached := true;
        }
      }
      if !added && ts - p.lastSend > MAX_SEND_PERIOD {
        if ts - p.lastRecv > MAX_SEND_PERIOD || !HasAny(p.flags, RECV_PONG) {
          ping := true;
          p := p.(lastSend := ts);
        }
      }
      if ts - p.lastRecv > DISCARD_PERIOD {
        discard := true;
      }
      if ts - p.found > MAX_RESPONSE_PERIOD && !HasAny(p.flags, RECV_PONG) {
        discard := true;
      }
    }

    static method ScanList(b: Bucket, sc0: Scan, attach: bool, ts: int) returns (sc: Scan)
      ensures sc == ScanBucket(b, sc0, attach, ts)
    {
      sc := sc0;
      for j := 0 to |b|
        invariant sc == ScanBucket(b[..j], sc0, attach, ts)
      {
        var p, ping, attached, discard := ScanOne(b[j], attach, ts);
        assert b[..j + 1][..j] == b[..j];
        sc := Scan(if discard then sc.kept else sc.kept + [p],
                   if ping then sc.pings + [p.id] else sc.pings,
                   if attached then sc.attached + 1 else sc.attached);
      }
      assert b[..|b|] == b;
    }

    method ScanOutOfDatePeers(ts: int) returns (peerIds: seq<BdId>)
      requires |buckets| == KEY_BITS && nodesPerBucket > 0
      modifies this
      ensures (State(), peerIds) == ScanTable(old(State()), ts)
      ensures peerIds == AllDueIds(old(buckets), old(attachedCount) > 0, ts)
      ensures forall now :: now <= ts && TableOk(old(State()), now) ==> TableOk(State(), ts)
    {
      ghost var was := State();
      var found := 0;
      peerIds, found := ScanAll(ts);
      if ts - attachTS > ATTACH_UPDATE_PERIOD || found != attachedCount {
        UpdateAttachedPeers();
        attachTS := ts;
      }
      Kept(was, ScanOutOfDate, ts);
      ScanReturns(was, ts);
    }

    method ScanAll(ts: int) returns (peerIds: seq<BdId>, found: nat)
      modifies this`buckets
      ensures var r := ScanBuckets(old(buckets), attachedCount > 0, ts);
              buckets == r.buckets && peerIds == r.pings && found == r.attached
    {
      peerIds, found := [], 0;
      ghost var was := buckets;
      var i := 0;
      while i < |buckets|
        invariant 0 <= i <= |buckets| == |was|
        invariant ScanBuckets(was[..i], attachedCount > 0, ts) == TableScan(buckets[..i], peerIds, found)
        invariant buckets[i..] == was[i..]
      {
        var sc := ScanList(buckets[i], Scan([], peerIds, found), attachedCount > 0, ts);
        assert was[..i + 1][..i] == was[..i] && buckets[i] == buckets[i..][0] == was[i..][0];
        assert buckets[i := sc.kept][..i + 1] == buckets[..i] + [sc.kept];
        assert buckets[i := sc.kept][i + 1..] == buckets[i..][1..];
        buckets := buckets[i := sc.kept];
        peerIds, found := sc.pings, sc.attached;
        i := i + 1;
      }
      assert was[..|was|] == was && buckets[..|buckets|] == buckets;
    }

    /** The loop over one bucket from its back. */
    static method MarkList(b: Bucket, wanted: bv32, left0: nat) returns (c: Bucket, left: nat)
      ensures (c, left) == MarkBucket(b, wanted, left0)
    {
      c, left := b, left0;
      var j := |b|;
      assert b[..j] == b && c[j..] == [];
      while j > 0
        invariant 0 <= j <= |b| == |c| && c[..j] == b[..j]
        invariant MarkBucket(b, wanted, left0).0 == MarkBucket(b[..j], wanted, left).0 + c[j..]
        invariant MarkBucket(b, wanted, left0).1 == MarkBucket(b[..j], wanted, left).1
      {
        j := j - 1;
        assert b[..j + 1][..j] == b[..j] && c[j] == c[..j + 1][j] == b[..j + 1][j];
        ghost var before, tail := left, c[j + 1..];
        var hit := false;
        if left > 0 {
          if HasAll(c[j].flags, wanted) {
            hit := true;
            left := left - 1;
          }
        }
        c := c[j := Mark(c[j], hit)];
        assert c[j..] == [c[j]] + tail;
        assert MarkBucket(b[..j + 1], wanted, before).0 == MarkBucket(b[..j], wanted, left).0 + [Mark(b[j], hit)];
      }
      assert b[..0] == [] && [] + c[0..] == c;
    }

    method UpdateAttachedPeers()
      requires |buckets| == KEY_BITS
      modifies this`buckets
      ensures State() == UpdateAttached(old(State()))
    {
      hide MarkBucket;
      ghost var was := buckets[1..];
      ghost var first := buckets[0];
      var left := attachedCount;
      var i := 1;
      assert was[..0] == [] && buckets[1..1] == [];
      while i < |buckets|
        invariant 1 <= i <= |buckets| == KEY_BITS && buckets[0] == first
        invariant MarkBuckets(was[..i - 1], attachedFlags, attachedCount) == (buckets[1..i], left)
        invariant buckets[i..] == was[i - 1..]
      {
        assert buckets[i] == buckets[i..][0] == was[i - 1..][0];
        var b;
        ghost var done, rest := buckets[1..i], buckets[i..];
        b, left := MarkList(buckets[i], attachedFlags, left);
        buckets := buckets[i := b];
        assert was[..i][..i - 1] == was[..i - 1];
        assert buckets[1..i + 1] == done + [b] && buckets[i + 1..] == rest[1..];
        i := i + 1;
      }
      assert was[..KEY_BITS - 1] == was && buckets[1..i] == buckets[1..];
      assert buckets == [buckets[0]] + buckets[1..];
    }

    // ------------------------------------------------------------- searching

    method FindNearestNodesWithFlags(id: NodeId, number: int, nearest0: seq<(Metric, BdId)>, wanted: bv32)
      returns (nearest: seq<(Metric, BdId)>)
      ensures nearest == InsertAll(nearest0, Nearest(State(), id, number, wanted))
      ensures nearest0 == [] ==> nearest == Nearest(State(), id, number, wanted)
    {
      var closest := [];
      for i := 0 to |buckets|
        invariant closest == Collect(buckets[..i], id, wanted)
      {
        assert buckets[..i + 1][..i] == buckets[..i];
        closest := CollectList(buckets[i], id, wanted, closest);
      }
      assert buckets[..|buckets|] == buckets;
      nearest := nearest0;
      var n := 0;
      while n < |closest| && n < number
        invariant 0 <= n <= |closest| && (n == 0 || n <= number)
        invariant nearest == InsertAll(nearest0, closest[..n])
      {
        assert closest[..n + 1][..n] == closest[..n];
        nearest := Insert(nearest, closest[n].0, closest[n].1);
        n := n + 1;
      }
      CollectIsMatching(buckets, id, wanted);
      TakeInOrder(closest, n);
      InsertAllInOrder(closest[..n]);
    }

    static method CollectList(b: Bucket, id: NodeId, wanted: bv32, found: seq<(Metric, BdId)>)
      returns (closest: seq<(Metric, BdId)>)
      ensures closest == CollectBucket(b, id, wanted, found)
    {
      closest := found;
      for j := 0 to |b|
        invariant closest == CollectBucket(b[..j], id, wanted, found)
      {
        assert b[..j + 1][..j] == b[..j];
        if wanted == 0 || HasAll(b[j].flags, wanted) {
          closest := Insert(closest, Dist(id, b[j].id.id), b[j].id);
        }
      }
      assert b[..|b|] == b;
    }

    method FindNode(id: NodeId, wanted: bv32) returns (matchIds: seq<BdId>)
      requires |buckets| == KEY_BITS
      ensures matchIds == FindInBucket(buckets[BucketOf(Dist(id, own))], id, wanted)
    {
      var i := BucketDistance(Dist(id, own));
      var b := buckets[i];
      matchIds := [];
      for j := 0 to |b|
        invariant matchIds == FindInBucket(b[..j], id, wanted)
      {
        assert b[..j + 1][..j] == b[..j];
        if wanted == 0 || HasAll(b[j].flags, wanted) {
          if id == b[j].id.id {
            matchIds := matchIds + [b[j].id];
          }
        }
      }
      assert b[..|b|] == b;
    }

    method CalcNetworkSize() returns (netSize: nat)
      requires |buckets| == KEY_BITS && 0 < nodesPerBucket
      requires forall i :: 0 <= i < |buckets| ==> |buckets[i]| < 32
      ensures netSize == Size.Estimate(Sizes(buckets), nodesPerBucket) % 0x1_0000_0000
    {
      netSize := Size.CalcNetworkSize(Sizes(buckets), nodesPerBucket);
    }

    // ---------------------------------------------------------------- the rest

    method SetAttachedFlag(flags: bv32, count: nat)
      modifies this`attachedFlags, this`attachedCount, this`attachTS
      ensures State() == SetAttached(old(State()), flags, count)
    {
      attachedFlags, attachedCount, attachTS := flags, count, 0;
    }

    method Clear()
      modifies this`buckets
      ensures State() == EmptyTable(old(State()))
    {
      var i := 0;
      while i < |buckets|
        invariant 0 <= i <= |buckets| == |old(buckets)|
        invariant forall k :: 0 <= k < i ==> buckets[k] == []
      {
        buckets := buckets[i := []];
        i := i + 1;
      }
    }
  }
}
