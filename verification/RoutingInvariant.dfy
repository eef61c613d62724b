/** What every sequence of operations keeps of the routing table, and what makes an entry leave it. */
module RoutingInvariant {
  import opened Ids
  import opened RoutingSpec

  ghost predicate BucketOk(b: Bucket, own: NodeId, i: nat, size: nat, now: int) {
    && |b| <= size
    && (forall j :: 0 <= j < |b| ==> BucketOf(Dist(own, b[j].id.id)) == i)
    && (forall j :: 0 <= j < |b| ==> b[j].lastRecv <= now)
    && (forall j, k :: 0 <= j < k < |b| ==> !Similar(b[j].id, b[k].id) && b[j].lastRecv <= b[k].lastRecv)
  }

  /**
   * Every entry is in the bucket of its distance, no bucket holds two similar
   * ids or too many, and each bucket is ordered by the time of last contact.
   */
  ghost predicate TableOk(t: Table, now: int) {
    && |t.buckets| == KEY_BITS
    && t.nodesPerBucket > 0
    && BucketsOk(t.buckets, t.own, t.nodesPerBucket, now)
  }

  ghost predicate BucketsOk(bs: seq<Bucket>, own: NodeId, size: nat, now: int) {
    forall i :: 0 <= i < |bs| ==> BucketOk(bs[i], own, i, size, now)
  }

  // ------------------------------------------------------------------ adding

  lemma RemoveAtKeeps(b: Bucket, v: nat, own: NodeId, i: nat, size: nat, now: int)
    requires BucketOk(b, own, i, size, now) && v < |b|
    ensures BucketOk(RemoveAt(b, v), own, i, size - 1, now)
  {
    RemoveAtIndex(b, v);
  }

  lemma Loosen(b: Bucket, own: NodeId, i: nat, size: nat, now: int, size': nat, now': int)
    requires BucketOk(b, own, i, size, now) && |b| <= size' && now <= now'
    ensures BucketOk(b, own, i, size', now')
  {
  }

  lemma AppendKeeps(b: Bucket, p: Peer, own: NodeId, i: nat, size: nat, now: int)
    requires BucketOk(b, own, i, size, now) && now <= p.lastRecv
    requires BucketOf(Dist(own, p.id.id)) == i
    requires forall j :: 0 <= j < |b| ==> !Similar(p.id, b[j].id)
    ensures BucketOk(b + [p], own, i, size + 1, p.lastRecv)
  {
  }

  lemma RefreshedIs(p: Peer, id: BdId, flags: bv32, ts: int)
    requires Similar(id, p.id)
    ensures var q := Refresh(p, id, flags, ts);
            q.id.id == id.id && Similar(q.id, p.id) && q.lastRecv == ts
  {
  }

  lemma RefreshKeeps(b: Bucket, s: nat, size: nat, id: BdId, flags: bv32, ts: int, own: NodeId, i: nat, now: int)
    requires BucketOk(b, own, i, size, now) && now <= ts && size > 0
    requires s < |b| && Similar(id, b[s].id)
    ensures BucketOk(RemoveAt(b, s) + [Refresh(b[s], id, flags, ts)], own, i, size, ts)
  {
    hide Refresh;
    RefreshedIs(b[s], id, flags, ts);
    RemoveAtKeeps(b, s, own, i, size, now);
    RemoveAtIndex(b, s);
    AppendKeeps(RemoveAt(b, s), Refresh(b[s], id, flags, ts), own, i, size - 1, now);
  }

  lemma AddKeeps(b: Bucket, size: nat, id: BdId, flags: bv32, ts: int, own: NodeId, i: nat, now: int)
    requires BucketOk(b, own, i, size, now) && now <= ts && size > 0
    requires BucketOf(Dist(own, id.id)) == i
    ensures BucketOk(AddToBucket(b, size, id, flags, ts).0, own, i, size, ts)
  {
    hide Victim, Refresh, MinFlags;
    var s := FindSimilar(b, id);
    if s < |b| {
      RefreshKeeps(b, s, size, id, flags, ts, own, i, now);
    } else if |b| < size {
      AppendKeeps(b, NewPeer(id, flags, ts), own, i, |b|, now);
    } else {
      var v := Victim(b, flags, ts);
      if v < |b| {
        RemoveAtKeeps(b, v, own, i, size, now);
        RemoveAtIndex(b, v);
        AppendKeeps(RemoveAt(b, v), NewPeer(id, flags, ts), own, i, size - 1, now);
      }
    }
  }

  /** The bucket already knows a peer similar to `id`. */
  predicate Knows(b: Bucket, id: BdId) {
    exists j :: 0 <= j < |b| && Similar(id, b[j].id)
  }

  predicate Stale(b: Bucket, ts: int) {
    b != [] && ts - b[0].lastRecv > MAX_RECV_PERIOD
  }

  /** The oldest of the entries with the lowest flags, which are below the newcomer's. */
  predicate Weakest(b: Bucket, v: nat, flags: bv32) {
    && v < |b| && Num(b[v].flags) < Num(flags)
    && (forall j :: 0 <= j < |b| ==> Num(b[v].flags) <= Num(b[j].flags))
    && (forall j :: 0 <= j < v ==> b[j].flags != b[v].flags)
  }

  lemma FindFlagsFinds(b: Bucket, flags: bv32, j: nat)
    requires j < |b| && b[j].flags == flags
    ensures FindFlags(b, flags) < |b|
  {
  }

  lemma VictimOf(b: Bucket, flags: bv32, ts: int)
    requires b != []
    ensures var v := Victim(b, flags, ts);
            && (v < |b| <==> Stale(b, ts) || exists j :: 0 <= j < |b| && Num(b[j].flags) < Num(flags))
            && (v < |b| ==> if Stale(b, ts) then v == 0 else Weakest(b, v, flags))
  {
    if !Stale(b, ts) {
      var m := MinFlags(b, flags);
      MinFlagsIsLeast(b, flags);
      if Num(flags) > Num(m) {
        var j :| 0 <= j < |b| && b[j].flags == m;
        FindFlagsFinds(b, m, j);
      }
    }
  }

  /**
   * When a peer that a full bucket does not know is taken in, exactly one
   * entry leaves: the front if it is stale, otherwise the oldest of the
   * entries with the lowest flags, and only if these are below the newcomer's.
   */
  lemma EvictsOnlyForCause(b: Bucket, size: nat, id: BdId, flags: bv32, ts: int)
    requires |b| == size > 0 && !Knows(b, id)
    ensures var (c, added) := AddToBucket(b, size, id, flags, ts);
            && (added <==> Stale(b, ts) || exists j :: 0 <= j < |b| && Num(b[j].flags) < Num(flags))
            && (!added ==> c == b)
            && (added ==> exists v :: 0 <= v < |b| && c == RemoveAt(b, v) + [Peer(id, flags, 0, ts, ts, 0)]
                                      && if Stale(b, ts) then v == 0 else Weakest(b, v, flags))
  {
    VictimOf(b, flags, ts);
  }

  /** With room left a newcomer goes to the back, unasked and just heard of, and nobody leaves. */
  lemma AddNew(b: Bucket, size: nat, id: BdId, flags: bv32, ts: int)
    requires |b| < size && !Knows(b, id)
    ensures AddToBucket(b, size, id, flags, ts) == (b + [Peer(id, flags, 0, ts, ts, 0)], true)
  {
    hide Similar, Refresh;
    var i := FindSimilar(b, id);
  }

  /** A known peer moves to the back, keeps its flags and gains the new ones; nobody leaves. */
  lemma AddKnown(b: Bucket, size: nat, id: BdId, flags: bv32, ts: int)
    requires Knows(b, id) && size > 0
    ensures var (c, added) := AddToBucket(b, size, id, flags, ts);
            && added && |c| == |b|
            && exists s :: 0 <= s < |b| && Similar(id, b[s].id)
                           && c == RemoveAt(b, s) + [HeardAgain(b[s], id, flags, ts)]
  {
    var s := FindSimilar(b, id);
    RefreshIsHeardAgain(b[s], id, flags, ts);
  }

  /** The entry under its new port, with all flags it ever had, marked unstable if the port is another. */
  function HeardAgain(p: Peer, id: BdId, flags: bv32, ts: int): Peer {
    Peer(id, p.flags | flags, p.lastSend, ts, p.found, if p.id == id then p.extra else p.extra | EX_UNSTABLE)
  }

  lemma RefreshIsHeardAgain(p: Peer, id: BdId, flags: bv32, ts: int)
    requires Similar(id, p.id)
    ensures Refresh(p, id, flags, ts) == HeardAgain(p, id, flags, ts)
  {
  }

  /** The entry with more flags in both words. */
  function Gaining(p: Peer, flags: bv32, extra: bv32): Peer {
    p.(flags := p.flags | flags, extra := p.extra | extra)
  }

  /** Flagging gives the similar entries of the bucket both words of flags, takes none away and touches nothing else. */
  lemma FlagsGained(b: Bucket, id: BdId, flags: bv32, extra: bv32, j: nat)
    requires j < |b|
    ensures var p, q := b[j], FlagBucket(b, id, flags, extra)[j];
            q == if Similar(id, p.id) then Gaining(p, flags, extra) else p
  {
    hide Join, Similar, Gaining;
    JoinIsGaining(b[j], flags, extra);
  }

  lemma JoinIsGaining(p: Peer, flags: bv32, extra: bv32)
    ensures p.(flags := Join(p.flags, flags), extra := Join(p.extra, extra)) == Gaining(p, flags, extra)
  {
  }

  /** Clearing takes the flags of the mask away and no others. */
  lemma FlagsCleared(b: Bucket, mask: bv32, j: nat)
    requires j < |b|
    ensures var p, q := b[j], ClearBucket(b, mask)[j];
            && q == p.(flags := q.flags)
            && q.flags & mask == 0 && q.flags | (p.flags & mask) == p.flags
  {
    BitsCleared(b[j].flags, mask);
  }

  lemma BitsCleared(flags: bv32, mask: bv32)
    ensures var left := Without(flags, mask); left & mask == 0 && left | (flags & mask) == flags
  {
  }

  // ------------------------------------------------------- flags and scanning

  /** The invariant looks at ids and times of contact only. */
  lemma CoreKeeps(b: Bucket, c: Bucket, own: NodeId, i: nat, size: nat, now: int)
    requires BucketOk(b, own, i, size, now) && |c| == |b|
    requires forall j :: 0 <= j < |b| ==> c[j].id == b[j].id && c[j].lastRecv == b[j].lastRecv
    ensures BucketOk(c, own, i, size, now)
  {
  }

  lemma FlagKeeps(b: Bucket, id: BdId, flags: bv32, extra: bv32, own: NodeId, i: nat, size: nat, now: int)
    requires BucketOk(b, own, i, size, now)
    ensures BucketOk(FlagBucket(b, id, flags, extra), own, i, size, now)
  {
    CoreKeeps(b, FlagBucket(b, id, flags, extra), own, i, size, now);
  }

  lemma ClearKeeps(b: Bucket, flags: bv32, own: NodeId, i: nat, size: nat, now: int)
    requires BucketOk(b, own, i, size, now)
    ensures BucketOk(ClearBucket(b, flags), own, i, size, now)
  {
    CoreKeeps(b, ClearBucket(b, flags), own, i, size, now);
  }

  /** Same peer, same times of contact. */
  predicate SamePeer(p: Peer, q: Peer) {
    p.id == q.id && p.lastRecv == q.lastRecv && p.found == q.found && p.flags == q.flags
  }

  ghost predicate DrawnFrom(c: Bucket, b: Bucket) {
    forall j :: 0 <= j < |c| ==> exists k :: 0 <= k < |b| && SamePeer(c[j], b[k])
  }

  lemma TakeKeeps(b: Bucket, n: nat, own: NodeId, i: nat, size: nat, now: int)
    requires BucketOk(b, own, i, size, now) && n < |b|
    ensures BucketOk(b[..n], own, i, n, b[n].lastRecv)
  {
  }

  lemma {:induction false} ScanKeeps(b: Bucket, sc: Scan, attach: bool, ts: int, own: NodeId, i: nat, size: nat,
                                     now: int)
    requires BucketOk(b, own, i, size, now) && sc.kept == []
    ensures var c := ScanBucket(b, sc, attach, ts).kept;
            BucketOk(c, own, i, |b|, now) && DrawnFrom(c, b)
  {
    if b != [] {
      var n := |b| - 1;
      var before := ScanBucket(b[..n], sc, attach, ts);
      TakeKeeps(b, n, own, i, size, now);
      ScanKeeps(b[..n], sc, attach, ts, own, i, n, b[n].lastRecv);
      ScanPeerKeeps(b, before, attach, ts, own, i, size, now);
    }
  }

  lemma ScanPeerKeeps(b: Bucket, sc: Scan, attach: bool, ts: int, own: NodeId, i: nat, size: nat, now: int)
    requires BucketOk(b, own, i, size, now) && b != []
    requires var n := |b| - 1; BucketOk(sc.kept, own, i, n, b[n].lastRecv) && DrawnFrom(sc.kept, b[..n])
    ensures var c := ScanPeer(sc, b[|b| - 1], attach, ts).kept;
            BucketOk(c, own, i, |b|, now) && DrawnFrom(c, b)
  {
    hide PingDue, Dead;
    var n := |b| - 1;
    var c := sc.kept;
    var p := if PingDue(b[n], attach, ts) then b[n].(lastSend := ts) else b[n];
    forall j | 0 <= j < |c|
      ensures !Similar(p.id, c[j].id)
      ensures exists k :: 0 <= k < |b| && SamePeer(c[j], b[k])
    {
      var k :| 0 <= k < n && SamePeer(c[j], b[..n][k]);
      assert SamePeer(c[j], b[k]);
    }
    Loosen(c, own, i, n, b[n].lastRecv, |b|, now);
    if !Dead(b[n], ts) {
      AppendKeeps(c, p, own, i, n, b[n].lastRecv);
      Loosen(c + [p], own, i, n + 1, p.lastRecv, |b|, now);
      assert SamePeer(p, b[n]);
    }
  }

  lemma SnocKeeps(bs: seq<Bucket>, b: Bucket, own: NodeId, size: nat, now: int)
    requires BucketsOk(bs, own, size, now) && BucketOk(b, own, |bs|, size, now)
    ensures BucketsOk(bs + [b], own, size, now)
  {
    forall i | 0 <= i <= |bs|
      ensures BucketOk((bs + [b])[i], own, i, size, now)
    {
      if i < |bs| {
        assert (bs + [b])[i] == bs[i];
      }
    }
  }

  lemma TakeBuckets(bs: seq<Bucket>, n: nat, own: NodeId, size: nat, now: int)
    requires BucketsOk(bs, own, size, now) && n <= |bs|
    ensures BucketsOk(bs[..n], own, size, now)
  {
    forall i | 0 <= i < n
      ensures BucketOk(bs[..n][i], own, i, size, now)
    {
      assert bs[..n][i] == bs[i];
    }
  }

  lemma {:induction false} ScanBucketsKeeps(bs: seq<Bucket>, attach: bool, ts: int, own: NodeId, size: nat, now: int)
    requires BucketsOk(bs, own, size, now)
    ensures BucketsOk(ScanBuckets(bs, attach, ts).buckets, own, size, now)
  {
    if bs != [] {
      var n := |bs| - 1;
      TakeBuckets(bs, n, own, size, now);
      ScanBucketsKeeps(bs[..n], attach, ts, own, size, now);
      var before := ScanBuckets(bs[..n], attach, ts);
      var sc := Scan([], before.pings, before.attached);
      ScanKeeps(bs[n], sc, attach, ts, own, n, size, now);
      var b := ScanBucket(bs[n], sc, attach, ts).kept;
      Loosen(b, own, n, |bs[n]|, now, size, now);
      SnocKeeps(before.buckets, b, own, size, now);
    }
  }

  predicate ExtraOnly(b: Bucket, c: Bucket) {
    |c| == |b| && forall j :: 0 <= j < |b| ==> c[j] == b[j].(extra := c[j].extra)
  }

  lemma {:induction false} MarkChanges(b: Bucket, wanted: bv32, left: nat)
    ensures var c := MarkBucket(b, wanted, left).0;
            ExtraOnly(b, c)
    decreases |b|
  {
    if b != [] {
      var n := |b| - 1;
      MarkChanges(b[..n], wanted, if left > 0 && HasAll(b[n].flags, wanted) then left - 1 else left);
    }
  }

  lemma {:induction false} MarkBucketsChanges(bs: seq<Bucket>, wanted: bv32, left: nat)
    ensures var cs := MarkBuckets(bs, wanted, left).0;
            forall i :: 0 <= i < |bs| ==> ExtraOnly(bs[i], cs[i])
  {
    if bs != [] {
      var n := |bs| - 1;
      MarkBucketsChanges(bs[..n], wanted, left);
      MarkChanges(bs[n], wanted, MarkBuckets(bs[..n], wanted, left).1);
    }
  }

  lemma ExtraKeeps(b: Bucket, c: Bucket, own: NodeId, i: nat, size: nat, now: int)
    requires BucketOk(b, own, i, size, now) && ExtraOnly(b, c)
    ensures BucketOk(c, own, i, size, now)
  {
  }

  lemma AttachKeeps(t: Table, now: int)
    requires TableOk(t, now)
    ensures TableOk(UpdateAttached(t), now)
  {
    var bs := t.buckets[1..];
    MarkBucketsChanges(bs, t.attachedFlags, t.attachedCount);
    var cs := MarkBuckets(bs, t.attachedFlags, t.attachedCount).0;
    forall i | 0 < i < KEY_BITS
      ensures BucketOk(UpdateAttached(t).buckets[i], t.own, i, t.nodesPerBucket, now)
    {
      assert bs[i - 1] == t.buckets[i];
      ExtraKeeps(t.buckets[i], cs[i - 1], t.own, i, t.nodesPerBucket, now);
    }
  }

  // -------------------------------------------------------------------- runs

  datatype Op =
    | Add(id: BdId, flags: bv32)
    | Flag(id: BdId, flags: bv32, extra: bv32)
    | CleanNodeFlags(flags: bv32)
    | ScanOutOfDate
    | Reattach
    | SetAttachedFlag(flags: bv32, count: nat)
    | Clear

  ghost function Place(t: Table, id: BdId): nat {
    BucketOf(Dist(t.own, id.id))
  }

  ghost function Do(t: Table, op: Op, ts: int): Table
    requires |t.buckets| == KEY_BITS && t.nodesPerBucket > 0
  {
    match op
    case Add(id, flags) => AddPeer(t, Place(t, id), id, flags, ts).0
    case Flag(id, flags, extra) => FlagPeer(t, Place(t, id), id, flags, extra)
    case CleanNodeFlags(flags) => CleanFlags(t, flags)
    case ScanOutOfDate => ScanTable(t, ts).0
    case Reattach => UpdateAttached(t)
    case SetAttachedFlag(flags, count) => SetAttached(t, flags, count)
    case Clear => EmptyTable(t)
  }

  lemma LaterOk(t: Table, now: int, ts: int)
    requires TableOk(t, now) && now <= ts
    ensures TableOk(t, ts)
  {
    forall i | 0 <= i < |t.buckets|
      ensures BucketOk(t.buckets[i], t.own, i, t.nodesPerBucket, ts)
    {
    }
  }

  lemma DoKeeps(t: Table, op: Op, now: int, ts: int)
    requires TableOk(t, now) && now <= ts
    ensures TableOk(Do(t, op, ts), ts)
  {
    hide AddToBucket, ClearBucket, FlagBucket, ScanBuckets, UpdateAttached;
    LaterOk(t, now, ts);
    match op {
      case Add(id, flags) =>
        AddKeeps(t.buckets[Place(t, id)], t.nodesPerBucket, id, flags, ts, t.own, Place(t, id), ts);
      case Flag(id, flags, extra) =>
        FlagKeeps(t.buckets[Place(t, id)], id, flags, extra, t.own, Place(t, id), t.nodesPerBucket, ts);
      case CleanNodeFlags(flags) =>
        forall i | 0 <= i < KEY_BITS
          ensures BucketOk(Do(t, op, ts).buckets[i], t.own, i, t.nodesPerBucket, ts)
        {
          ClearKeeps(t.buckets[i], flags, t.own, i, t.nodesPerBucket, ts);
        }
      case ScanOutOfDate =>
        ScanBucketsKeeps(t.buckets, t.attachedCount > 0, ts, t.own, t.nodesPerBucket, ts);
        AttachKeeps(t.(buckets := ScanBuckets(t.buckets, t.attachedCount > 0, ts).buckets), ts);
      case Reattach => AttachKeeps(t, ts);
      case SetAttachedFlag(_, _) =>
      case Clear =>
    }
  }

  function StartTable(own: NodeId, nodesPerBucket: nat): Table {
    Table(own, nodesPerBucket, seq(KEY_BITS, i => []), 0, 0, 0)
  }

  /** The operations with the time of each; a clock that goes back is held. */
  ghost function Play(own: NodeId, nodesPerBucket: nat, ops: seq<(Op, int)>): (r: (Table, int))
    requires nodesPerBucket > 0
    ensures |r.0.buckets| == KEY_BITS && r.0.nodesPerBucket == nodesPerBucket
  {
    if ops == [] then (StartTable(own, nodesPerBucket), 0)
    else
      var (t, now) := Play(own, nodesPerBucket, ops[..|ops| - 1]);
      var (op, ts) := ops[|ops| - 1];
      if ts < now then (t, now) else (DoShape(t, op, ts); Do(t, op, ts), ts)
  }

  lemma DoShape(t: Table, op: Op, ts: int)
    requires |t.buckets| == KEY_BITS && t.nodesPerBucket > 0
    ensures |Do(t, op, ts).buckets| == KEY_BITS && Do(t, op, ts).nodesPerBucket == t.nodesPerBucket
  {
  }

  /** The table is in order after every sequence of operations under a clock that does not go back. */
  lemma {:induction false} AlwaysOk(own: NodeId, nodesPerBucket: nat, ops: seq<(Op, int)>)
    requires nodesPerBucket > 0
    ensures var (t, now) := Play(own, nodesPerBucket, ops); TableOk(t, now)
  {
    if ops != [] {
      AlwaysOk(own, nodesPerBucket, ops[..|ops| - 1]);
      var (t, now) := Play(own, nodesPerBucket, ops[..|ops| - 1]);
      var (op, ts) := ops[|ops| - 1];
      if ts >= now {
        DoKeeps(t, op, now, ts);
      }
    }
  }
}
