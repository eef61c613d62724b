/** What a scan of the routing table returns and leaves, told by the times and flags of the entries alone. */
module RoutingScan {
  import opened Ids
  import opened RoutingSpec
  import opened RoutingInvariant
  import opened RoutingSearch

  /**
   * Due for a ping: silent and unasked for five minutes, or unasked for five
   * minutes without ever a pong, or attached and quiet both ways for 17 seconds.
   */
  predicate Due(p: Peer, attach: bool, ts: int) {
    || (ts - p.lastSend > 300 && ts - p.lastRecv > 300)
    || (ts - p.lastSend > 300 && RECV_PONG & p.flags == 0)
    || (attach && EX_ATTACHED & p.extra != 0 && ts - p.lastSend > 17 && ts - p.lastRecv > 17)
  }

  lemma DueIsPingDue(p: Peer, attach: bool, ts: int)
    ensures Due(p, attach, ts) <==> PingDue(p, attach, ts)
  {
  }

  /** The ids of the entries that are due, in the order of the bucket. */
  function DueIds(b: Bucket, attach: bool, ts: int): seq<BdId> {
    if b == [] then []
    else DueIds(b[..|b| - 1], attach, ts) + if Due(b[|b| - 1], attach, ts) then [b[|b| - 1].id] else []
  }

  function AllDueIds(bs: seq<Bucket>, attach: bool, ts: int): seq<BdId> {
    if bs == [] then [] else AllDueIds(bs[..|bs| - 1], attach, ts) + DueIds(bs[|bs| - 1], attach, ts)
  }

  /** The living entries in their order; whoever is due has been sent a ping. */
  function Survivors(b: Bucket, attach: bool, ts: int): Bucket {
    if b == [] then []
    else
      var p := b[|b| - 1];
      Survivors(b[..|b| - 1], attach, ts)
      + if !Alive(p, ts) then [] else if Due(p, attach, ts) then [p.(lastSend := ts)] else [p]
  }

  lemma {:induction false} BucketScanned(b: Bucket, sc: Scan, attach: bool, ts: int)
    ensures var r := ScanBucket(b, sc, attach, ts);
            && r.kept == sc.kept + Survivors(b, attach, ts)
            && r.pings == sc.pings + DueIds(b, attach, ts)
            && r.attached == sc.attached + if attach then CountAttached(b) else 0
  {
    hide Due, PingDue, Dead, Alive;
    if b != [] {
      var n := |b| - 1;
      BucketScanned(b[..n], sc, attach, ts);
      DueIsPingDue(b[n], attach, ts);
      AliveIsNotDead(b[n], ts);
    }
  }

  lemma AliveIsNotDead(p: Peer, ts: int)
    ensures Alive(p, ts) <==> !Dead(p, ts)
  {
  }

  lemma {:induction false} BucketsScanned(bs: seq<Bucket>, attach: bool, ts: int)
    ensures var r := ScanBuckets(bs, attach, ts);
            && (forall i :: 0 <= i < |bs| ==> r.buckets[i] == Survivors(bs[i], attach, ts))
            && r.pings == AllDueIds(bs, attach, ts)
            && r.attached == if attach then TotalAttached(bs) else 0
  {
    if bs != [] {
      var n := |bs| - 1;
      BucketsScanned(bs[..n], attach, ts);
      var before := ScanBuckets(bs[..n], attach, ts);
      BucketScanned(bs[n], Scan([], before.pings, before.attached), attach, ts);
      assert forall i :: 0 <= i < n ==> bs[..n][i] == bs[i];
    }
  }

  /** Same entries but for the marks of the attached ones. */
  ghost predicate SameButMarks(b: Bucket, c: Bucket) {
    |b| == |c| && forall j :: 0 <= j < |b| ==> c[j] == b[j].(extra := c[j].extra)
  }

  lemma {:induction false} MarkKeepsRest(b: Bucket, wanted: bv32, left: nat)
    ensures SameButMarks(b, MarkBucket(b, wanted, left).0)
    decreases |b|
  {
    if b != [] {
      var n := |b| - 1;
      MarkKeepsRest(b[..n], wanted, if left > 0 && HasAll(b[n].flags, wanted) then left - 1 else left);
    }
  }

  lemma {:induction false} MarksKeepRest(bs: seq<Bucket>, wanted: bv32, left: nat)
    ensures forall i :: 0 <= i < |bs| ==> SameButMarks(bs[i], MarkBuckets(bs, wanted, left).0[i])
  {
    if bs != [] {
      var n := |bs| - 1;
      MarksKeepRest(bs[..n], wanted, left);
      MarkKeepsRest(bs[n], wanted, MarkBuckets(bs[..n], wanted, left).1);
      assert forall i :: 0 <= i < n ==> bs[..n][i] == bs[i];
    }
  }

  /** The marks are renewed every ten minutes, or when their number is not the one that is wanted. */
  function RenewsMarks(t: Table, ts: int): bool {
    ts - t.attachTS > 600 || (if t.attachedCount > 0 then TotalAttached(t.buckets) else 0) != t.attachedCount
  }

  /**
   * A scan returns the ids of the entries that are due, bucket by bucket, and
   * leaves the living entries, each with its send time set if it was due.
   */
  lemma ScanReturns(t: Table, ts: int)
    ensures var (u, ids) := ScanTable(t, ts);
            var attach := t.attachedCount > 0;
            && ids == AllDueIds(t.buckets, attach, ts)
            && |u.buckets| == |t.buckets|
            && (forall i :: 0 <= i < |t.buckets| ==> SameButMarks(Survivors(t.buckets[i], attach, ts), u.buckets[i]))
            && u.attachTS == (if RenewsMarks(t, ts) then ts else t.attachTS)
            && (!RenewsMarks(t, ts) ==>
                 forall i :: 0 <= i < |t.buckets| ==> u.buckets[i] == Survivors(t.buckets[i], attach, ts))
  {
    hide Survivors, AllDueIds;
    BucketsScanned(t.buckets, t.attachedCount > 0, ts);
    var r := ScanBuckets(t.buckets, t.attachedCount > 0, ts);
    hide ScanBuckets;
    if RenewsMarks(t, ts) && t.buckets != [] {
      MarksKeepRest(r.buckets[1..], t.attachedFlags, t.attachedCount);
      assert forall i :: 0 < i < |t.buckets| ==> r.buckets[i] == r.buckets[1..][i - 1];
    }
  }

  // -------------------------------------------------------------- once each

  lemma {:induction false} DueIdsAre(b: Bucket, attach: bool, ts: int, id: BdId)
    ensures id in DueIds(b, attach, ts) <==> exists j :: 0 <= j < |b| && Due(b[j], attach, ts) && b[j].id == id
  {
    if b != [] {
      var n := |b| - 1;
      DueIdsAre(b[..n], attach, ts, id);
      assert forall j :: 0 <= j < n ==> b[..n][j] == b[j];
    }
  }

  ghost predicate Distinct(ids: seq<BdId>) {
    forall i, j :: 0 <= i < j < |ids| ==> ids[i] != ids[j]
  }

  lemma DistinctAppend(a: seq<BdId>, b: seq<BdId>)
    requires Distinct(a) && Distinct(b) && forall x :: x in a ==> x !in b
    ensures Distinct(a + b)
  {
    forall i, j | 0 <= i < j < |a + b|
      ensures (a + b)[i] != (a + b)[j]
    {
      if i < |a| && |a| <= j {
        assert a[i] in a && b[j - |a|] in b;
      }
    }
  }

  lemma {:induction false} DueIdsDistinct(b: Bucket, attach: bool, ts: int)
    requires forall j, k :: 0 <= j < k < |b| ==> b[j].id != b[k].id
    ensures Distinct(DueIds(b, attach, ts))
  {
    if b != [] {
      var n := |b| - 1;
      DueIdsDistinct(b[..n], attach, ts);
      DueIdsAre(b[..n], attach, ts, b[n].id);
    }
  }

  ghost predicate HasDue(bs: seq<Bucket>, attach: bool, ts: int, id: BdId) {
    exists i, j :: 0 <= i < |bs| && 0 <= j < |bs[i]| && Due(bs[i][j], attach, ts) && bs[i][j].id == id
  }

  lemma {:induction false} AllDueIdsAre(bs: seq<Bucket>, attach: bool, ts: int, id: BdId)
    ensures id in AllDueIds(bs, attach, ts) <==> HasDue(bs, attach, ts, id)
  {
    hide Due, DueIds;
    if bs != [] {
      var n := |bs| - 1;
      AllDueIdsAre(bs[..n], attach, ts, id);
      DueIdsAre(bs[n], attach, ts, id);
      assert forall i :: 0 <= i < n ==> bs[..n][i] == bs[i];
      if HasDue(bs[..n], attach, ts, id) {
        var i, j :| 0 <= i < n && 0 <= j < |bs[..n][i]| && Due(bs[..n][i][j], attach, ts) && bs[..n][i][j].id == id;
        assert Due(bs[i][j], attach, ts);
      }
    }
  }

  /** Entries of an ordered table that have the same id are the same entry. */
  lemma OneEntryEach(t: Table, now: int, i: nat, j: nat, k: nat, l: nat)
    requires TableOk(t, now) && i < |t.buckets| && k < |t.buckets| && j < |t.buckets[i]| && l < |t.buckets[k]|
    requires t.buckets[i][j].id == t.buckets[k][l].id
    ensures i == k && j == l
  {
    assert BucketOk(t.buckets[i], t.own, i, t.nodesPerBucket, now);
    assert BucketOk(t.buckets[k], t.own, k, t.nodesPerBucket, now);
    assert Similar(t.buckets[i][j].id, t.buckets[k][l].id);
  }

  lemma {:induction false} DistinctPrefix(t: Table, now: int, n: nat, attach: bool, ts: int)
    requires TableOk(t, now) && n <= |t.buckets|
    ensures Distinct(AllDueIds(t.buckets[..n], attach, ts))
  {
    hide TableOk, Due;
    if n > 0 {
      var before, last := t.buckets[..n - 1], t.buckets[n - 1];
      var ids := AllDueIds(before, attach, ts);
      DistinctPrefix(t, now, n - 1, attach, ts);
      LastDistinct(t, now, n - 1);
      DueIdsDistinct(last, attach, ts);
      forall x | x in ids
        ensures x !in DueIds(last, attach, ts)
      {
        AllDueIdsAre(before, attach, ts, x);
        DueIdsAre(last, attach, ts, x);
        if x in DueIds(last, attach, ts) {
          var i, j :| 0 <= i < n - 1 && 0 <= j < |before[i]| && Due(before[i][j], attach, ts) && before[i][j].id == x;
          var l :| 0 <= l < |last| && Due(last[l], attach, ts) && last[l].id == x;
          OneEntryEach(t, now, i, j, n - 1, l);
        }
      }
      DistinctAppend(ids, DueIds(last, attach, ts));
      assert t.buckets[..n][..n - 1] == before;
    }
  }

  lemma LastDistinct(t: Table, now: int, i: nat)
    requires TableOk(t, now) && i < |t.buckets|
    ensures forall j, k :: 0 <= j < k < |t.buckets[i]| ==> t.buckets[i][j].id != t.buckets[i][k].id
  {
    var b := t.buckets[i];
    forall j, k | 0 <= j < k < |b|
      ensures b[j].id != b[k].id
    {
      if b[j].id == b[k].id {
        OneEntryEach(t, now, i, j, i, k);
      }
    }
  }

  /** In an ordered table nobody is pinged twice, and an entry is pinged exactly if it is due. */
  lemma PingedOnce(t: Table, now: int, ts: int)
    requires TableOk(t, now)
    ensures var ids := ScanTable(t, ts).1;
            && Distinct(ids)
            && forall i, j :: 0 <= i < |t.buckets| && 0 <= j < |t.buckets[i]| ==>
                 (t.buckets[i][j].id in ids <==> Due(t.buckets[i][j], t.attachedCount > 0, ts))
  {
    hide Due, AllDueIds;
    var attach := t.attachedCount > 0;
    ScanReturns(t, ts);
    hide ScanTable;
    assert t.buckets[..|t.buckets|] == t.buckets;
    DistinctPrefix(t, now, |t.buckets|, attach, ts);
    forall i, j | 0 <= i < |t.buckets| && 0 <= j < |t.buckets[i]|
      ensures t.buckets[i][j].id in AllDueIds(t.buckets, attach, ts) <==> Due(t.buckets[i][j], attach, ts)
    {
      var x := t.buckets[i][j].id;
      AllDueIdsAre(t.buckets, attach, ts, x);
      if HasDue(t.buckets, attach, ts, x) {
        var k, l :| 0 <= k < |t.buckets| && 0 <= l < |t.buckets[k]| && Due(t.buckets[k][l], attach, ts)
                    && t.buckets[k][l].id == x;
        OneEntryEach(t, now, i, j, k, l);
      }
    }
  }
}
