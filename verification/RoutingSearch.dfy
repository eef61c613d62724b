/** Searching the routing table: nearest nodes, and one node by its id. */
module RoutingSearch {
  import opened Ids
  import opened Ordered
  import opened RoutingSpec
  import opened RoutingInvariant

  predicate Matches(p: Peer, wanted: bv32) {
    wanted == 0 || HasAll(p.flags, wanted)
  }

  function CollectBucket(b: Bucket, id: NodeId, wanted: bv32, found: seq<(Metric, BdId)>): seq<(Metric, BdId)> {
    if b == [] then found
    else
      var n := |b| - 1;
      var before := CollectBucket(b[..n], id, wanted, found);
      if Matches(b[n], wanted) then Insert(before, Dist(id, b[n].id.id), b[n].id) else before
  }

  function Collect(bs: seq<Bucket>, id: NodeId, wanted: bv32): seq<(Metric, BdId)> {
    if bs == [] then [] else CollectBucket(bs[|bs| - 1], id, wanted, Collect(bs[..|bs| - 1], id, wanted))
  }

  function Clip(number: int, n: nat): (k: nat)
    ensures k <= n
  {
    if number <= 0 then 0 else if number < n then number else n
  }

  /** The closest `number` of the matching entries. */
  function Nearest(t: Table, id: NodeId, number: int, wanted: bv32): seq<(Metric, BdId)> {
    var all := Collect(t.buckets, id, wanted);
    all[..Clip(number, |all|)]
  }

  function IdsOf(found: seq<(Metric, BdId)>): (ids: seq<BdId>)
    ensures |ids| == |found|
  {
    seq(|found|, i requires 0 <= i < |found| => found[i].1)
  }

  function InsertAll(s: seq<(Metric, BdId)>, more: seq<(Metric, BdId)>): seq<(Metric, BdId)> {
    if more == [] then s
    else
      var n := |more| - 1;
      Insert(InsertAll(s, more[..n]), more[n].0, more[n].1)
  }

  // ------------------------------------------------- the reference definition

  /** The matching ids with their distances, bucket by bucket. */
  function MatchingIn(b: Bucket, id: NodeId, wanted: bv32): seq<(Metric, BdId)> {
    if b == [] then []
    else
      var n := |b| - 1;
      MatchingIn(b[..n], id, wanted) + if Matches(b[n], wanted) then [(Dist(id, b[n].id.id), b[n].id)] else []
  }

  function Matching(bs: seq<Bucket>, id: NodeId, wanted: bv32): seq<(Metric, BdId)> {
    if bs == [] then [] else Matching(bs[..|bs| - 1], id, wanted) + MatchingIn(bs[|bs| - 1], id, wanted)
  }

  lemma {:induction false} CollectBucketIsMatching(b: Bucket, id: NodeId, wanted: bv32, found: seq<(Metric, BdId)>)
    requires InOrder(found)
    ensures var c := CollectBucket(b, id, wanted, found);
            InOrder(c) && multiset(c) == multiset(found) + multiset(MatchingIn(b, id, wanted))
  {
    if b != [] {
      var n := |b| - 1;
      CollectBucketIsMatching(b[..n], id, wanted, found);
      var before := CollectBucket(b[..n], id, wanted, found);
      InsertInOrder(before, Dist(id, b[n].id.id), b[n].id);
      InsertAdds(before, Dist(id, b[n].id.id), b[n].id);
    }
  }

  lemma {:induction false} CollectIsMatching(bs: seq<Bucket>, id: NodeId, wanted: bv32)
    ensures var c := Collect(bs, id, wanted);
            InOrder(c) && multiset(c) == multiset(Matching(bs, id, wanted))
  {
    if bs != [] {
      var n := |bs| - 1;
      CollectIsMatching(bs[..n], id, wanted);
      CollectBucketIsMatching(bs[n], id, wanted, Collect(bs[..n], id, wanted));
    }
  }

  lemma MultisetSize<T>(a: seq<T>, b: seq<T>)
    requires multiset(a) == multiset(b)
    ensures |a| == |b|
  {
    assert |multiset(a)| == |a| && |multiset(b)| == |b|;
  }

  /**
   * The search yields min(number, matching) entries in the order of their
   * distance; what it leaves out is the rest of the matching entries, and none
   * of them is strictly closer than one it yields.
   */
  lemma NearestIsNearest(t: Table, id: NodeId, number: int, wanted: bv32) returns (rest: seq<(Metric, BdId)>)
    ensures var r := Nearest(t, id, number, wanted);
            var all := Matching(t.buckets, id, wanted);
            && |r| == Clip(number, |all|)
            && InOrder(r)
            && multiset(r) + multiset(rest) == multiset(all)
            && forall i, j :: 0 <= i < |r| && 0 <= j < |rest| ==> !Less(rest[j].0, r[i].0)
  {
    hide Collect, Matching, Less;
    var c := Collect(t.buckets, id, wanted);
    CollectIsMatching(t.buckets, id, wanted);
    MultisetSize(c, Matching(t.buckets, id, wanted));
    var k := Clip(number, |c|);
    rest := c[k..];
    TakeInOrder(c, k);
    hide InOrder;
    SplitAt(c, k);
  }

  lemma SplitAt<T>(s: seq<T>, k: nat)
    requires k <= |s|
    ensures multiset(s[..k]) + multiset(s[k..]) == multiset(s)
  {
    assert s == s[..k] + s[k..];
  }

  ghost predicate Holds(bs: seq<Bucket>, id: NodeId, wanted: bv32, e: (Metric, BdId)) {
    exists i, j :: 0 <= i < |bs| && 0 <= j < |bs[i]| && Matches(bs[i][j], wanted)
                   && e == (Dist(id, bs[i][j].id.id), bs[i][j].id)
  }

  lemma {:induction false} MatchingInHolds(b: Bucket, id: NodeId, wanted: bv32, e: (Metric, BdId))
    ensures e in MatchingIn(b, id, wanted)
            <==> exists j :: 0 <= j < |b| && Matches(b[j], wanted) && e == (Dist(id, b[j].id.id), b[j].id)
  {
    if b != [] {
      var n := |b| - 1;
      MatchingInHolds(b[..n], id, wanted, e);
      assert forall j :: 0 <= j < n ==> b[..n][j] == b[j];
    }
  }

  /** The matching entries are those of the table that carry every wanted flag. */
  lemma {:induction false} MatchingHolds(bs: seq<Bucket>, id: NodeId, wanted: bv32, e: (Metric, BdId))
    ensures e in Matching(bs, id, wanted) <==> Holds(bs, id, wanted, e)
  {
    if bs != [] {
      var n := |bs| - 1;
      MatchingHolds(bs[..n], id, wanted, e);
      MatchingInHolds(bs[n], id, wanted, e);
      assert forall i :: 0 <= i < n ==> bs[..n][i] == bs[i];
      if e in Matching(bs[..n], id, wanted) {
        var i, j :| 0 <= i < n && 0 <= j < |bs[..n][i]| && Matches(bs[..n][i][j], wanted)
                    && e == (Dist(id, bs[..n][i][j].id.id), bs[..n][i][j].id);
        assert Matches(bs[i][j], wanted);
      }
    }
  }

  /** Started from an empty result the search returns just these entries. */
  lemma {:induction false} InsertAllInOrder(more: seq<(Metric, BdId)>)
    requires InOrder(more)
    ensures InsertAll([], more) == more
  {
    if more != [] {
      var n := |more| - 1;
      InsertAllInOrder(more[..n]);
      UpperBoundSplits(more[..n], more[n].0);
      assert more == more[..n] + [more[n]];
    }
  }

  // ------------------------------------------------------------ one node by id

  /** The ids in a bucket that belong to the node and carry the flags. */
  function FindInBucket(b: Bucket, id: NodeId, wanted: bv32): seq<BdId> {
    if b == [] then []
    else
      var n := |b| - 1;
      FindInBucket(b[..n], id, wanted) + if Matches(b[n], wanted) && b[n].id.id == id then [b[n].id] else []
  }

  lemma {:induction false} FindInBucketFinds(b: Bucket, id: NodeId, wanted: bv32, x: BdId)
    ensures x in FindInBucket(b, id, wanted)
            <==> exists j :: 0 <= j < |b| && Matches(b[j], wanted) && b[j].id.id == id && b[j].id == x
  {
    if b != [] {
      var n := |b| - 1;
      FindInBucketFinds(b[..n], id, wanted, x);
      assert forall j :: 0 <= j < n ==> b[..n][j] == b[j];
    }
  }

  /** Looking in the one bucket of the id finds what a look at the whole table would find. */
  lemma OneBucketSuffices(t: Table, now: int, id: NodeId, wanted: bv32, x: BdId)
    requires TableOk(t, now)
    ensures x in FindInBucket(t.buckets[BucketOf(Dist(id, t.own))], id, wanted)
            <==> exists i, j :: 0 <= i < |t.buckets| && 0 <= j < |t.buckets[i]|
                   && Matches(t.buckets[i][j], wanted) && t.buckets[i][j].id.id == id && t.buckets[i][j].id == x
  {
    var home := BucketOf(Dist(id, t.own));
    FindInBucketFinds(t.buckets[home], id, wanted, x);
    DistIdentity(id, t.own);
    forall i, j | 0 <= i < |t.buckets| && 0 <= j < |t.buckets[i]| && t.buckets[i][j].id.id == id
      ensures i == home
    {
      assert BucketOk(t.buckets[i], t.own, i, t.nodesPerBucket, now);
    }
  }

  // ------------------------------------------------------------- after a scan

  /** Heard of lately, and it has answered a ping or is too young to have had the time. */
  predicate Alive(p: Peer, ts: int) {
    && ts - p.lastRecv <= DISCARD_PERIOD
    && (HasAny(p.flags, RECV_PONG) || ts - p.found <= MAX_RESPONSE_PERIOD)
  }

  /** No ping is overdue. */
  predicate Quiet(p: Peer, ts: int) {
    || ts - p.lastSend <= MAX_SEND_PERIOD
    || (ts - p.lastRecv <= MAX_SEND_PERIOD && HasAny(p.flags, RECV_PONG))
  }

  ghost predicate Survives(b: Bucket, c: Bucket, attach: bool, ts: int, p: Peer) {
    p in c <==> exists j :: 0 <= j < |b| && Alive(b[j], ts)
                   && p == if PingDue(b[j], attach, ts) then b[j].(lastSend := ts) else b[j]
  }

  /** A scan keeps exactly the living entries; the time of a ping is noted. */
  lemma {:induction false} ScanKeepsAlive(b: Bucket, sc: Scan, attach: bool, ts: int, p: Peer)
    requires sc.kept == []
    ensures Survives(b, ScanBucket(b, sc, attach, ts).kept, attach, ts, p)
  {
    if b != [] {
      var n := |b| - 1;
      ScanKeepsAlive(b[..n], sc, attach, ts, p);
      assert forall j :: 0 <= j < n ==> b[..n][j] == b[j];
    }
  }

  /** After a scan every entry is alive and no ping is overdue. */
  lemma ScanLeavesQuiet(b: Bucket, sc: Scan, attach: bool, ts: int)
    requires sc.kept == []
    ensures forall p :: p in ScanBucket(b, sc, attach, ts).kept ==> Alive(p, ts) && Quiet(p, ts)
  {
    forall p | p in ScanBucket(b, sc, attach, ts).kept
      ensures Alive(p, ts) && Quiet(p, ts)
    {
      ScanKeepsAlive(b, sc, attach, ts, p);
    }
  }

  // ----------------------------------------------------------------- attached

  function CountMatching(b: Bucket, wanted: bv32): nat {
    if b == [] then 0 else CountMatching(b[..|b| - 1], wanted) + if HasAll(b[|b| - 1].flags, wanted) then 1 else 0
  }

  function CountAttached(b: Bucket): nat {
    if b == [] then 0 else CountAttached(b[..|b| - 1]) + if HasAny(b[|b| - 1].extra, EX_ATTACHED) then 1 else 0
  }

  function Lesser(a: nat, b: nat): nat {
    if a < b then a else b
  }

  lemma MarkSets(p: Peer, attached: bool)
    ensures HasAny(Mark(p, attached).extra, EX_ATTACHED) <==> attached
  {
  }

  /** A bucket ends up with as many attached entries as it has matching ones, up to `left`. */
  lemma {:induction false} MarkCounts(b: Bucket, wanted: bv32, left: nat)
    ensures var (c, l) := MarkBucket(b, wanted, left);
            && CountAttached(c) == Lesser(left, CountMatching(b, wanted))
            && l == left - CountAttached(c)
    decreases |b|
  {
    hide HasAll, Mark;
    if b != [] {
      var n := |b| - 1;
      var hit := left > 0 && HasAll(b[n].flags, wanted);
      var rest := MarkBucket(b[..n], wanted, if hit then left - 1 else left).0;
      MarkCounts(b[..n], wanted, if hit then left - 1 else left);
      MarkSets(b[n], hit);
      assert (rest + [Mark(b[n], hit)])[..n] == rest;
    }
  }

  function TotalMatching(bs: seq<Bucket>, wanted: bv32): nat {
    if bs == [] then 0 else TotalMatching(bs[..|bs| - 1], wanted) + CountMatching(bs[|bs| - 1], wanted)
  }

  function TotalAttached(bs: seq<Bucket>): nat {
    if bs == [] then 0 else TotalAttached(bs[..|bs| - 1]) + CountAttached(bs[|bs| - 1])
  }

  lemma {:induction false} MarkBucketsCounts(bs: seq<Bucket>, wanted: bv32, left: nat)
    ensures var (cs, l) := MarkBuckets(bs, wanted, left);
            && TotalAttached(cs) == Lesser(left, TotalMatching(bs, wanted))
            && l == left - TotalAttached(cs)
  {
    if bs != [] {
      var n := |bs| - 1;
      MarkBucketsCounts(bs[..n], wanted, left);
      var (done, l) := MarkBuckets(bs[..n], wanted, left);
      MarkCounts(bs[n], wanted, l);
      assert (done + [MarkBucket(bs[n], wanted, l).0])[..n] == done;
    }
  }

  /** An update attaches as many peers as wanted, or all that match if they are fewer. */
  lemma UpdateAttaches(t: Table)
    requires t.buckets != []
    ensures TotalAttached(UpdateAttached(t).buckets[1..])
            == Lesser(t.attachedCount, TotalMatching(t.buckets[1..], t.attachedFlags))
    ensures UpdateAttached(t).buckets[0] == t.buckets[0]
  {
    MarkBucketsCounts(t.buckets[1..], t.attachedFlags, t.attachedCount);
    assert UpdateAttached(t).buckets[1..] == MarkBuckets(t.buckets[1..], t.attachedFlags, t.attachedCount).0;
  }

  /** An entry is attached exactly if it matches and too few that match were heard of more recently. */
  lemma {:induction false} MarkedExactly(b: Bucket, wanted: bv32, left: nat, j: nat)
    requires j < |b|
    ensures HasAny(MarkBucket(b, wanted, left).0[j].extra, EX_ATTACHED)
            <==> HasAll(b[j].flags, wanted) && CountMatching(b[j + 1..], wanted) < left
    decreases |b|
  {
    hide HasAll, HasAny, Mark;
    var n := |b| - 1;
    var hit := left > 0 && HasAll(b[n].flags, wanted);
    MarkSets(b[n], hit);
    if j < n {
      MarkedExactly(b[..n], wanted, if hit then left - 1 else left, j);
      assert b[j + 1..][..n - j - 1] == b[..n][j + 1..];
    } else {
      assert b[j + 1..] == [];
    }
  }

  lemma {:induction false} AllMarkedExactly(bs: seq<Bucket>, wanted: bv32, left: nat, i: nat, j: nat)
    requires i < |bs| && j < |bs[i]|
    ensures var c := MarkBuckets(bs, wanted, left).0[i];
            && |c| == |bs[i]|
            && (HasAny(c[j].extra, EX_ATTACHED)
                <==> HasAll(bs[i][j].flags, wanted)
                     && TotalMatching(bs[..i], wanted) + CountMatching(bs[i][j + 1..], wanted) < left)
  {
    hide HasAll, HasAny, Mark, MarkBucket;
    var n := |bs| - 1;
    if i < n {
      AllMarkedExactly(bs[..n], wanted, left, i, j);
      assert bs[..n][..i] == bs[..i];
    } else {
      MarkBucketsCounts(bs[..n], wanted, left);
      MarkedExactly(bs[n], wanted, MarkBuckets(bs[..n], wanted, left).1, j);
    }
  }

  /**
   * After an update an entry of any bucket but the first is attached exactly if
   * it has the flags and fewer than the wanted number come before it: those in
   * nearer buckets, and those of its bucket that were heard of more recently.
   */
  lemma AttachedExactly(t: Table, i: nat, j: nat)
    requires 0 < i < |t.buckets| && j < |t.buckets[i]|
    ensures var c := UpdateAttached(t).buckets[i];
            && |c| == |t.buckets[i]|
            && (HasAny(c[j].extra, EX_ATTACHED)
                <==> HasAll(t.buckets[i][j].flags, t.attachedFlags)
                     && TotalMatching(t.buckets[1..i], t.attachedFlags)
                        + CountMatching(t.buckets[i][j + 1..], t.attachedFlags) < t.attachedCount)
  {
    hide HasAll, HasAny, MarkBuckets;
    AllMarkedExactly(t.buckets[1..], t.attachedFlags, t.attachedCount, i - 1, j);
    assert t.buckets[1..][..i - 1] == t.buckets[1..i] && t.buckets[1..][i - 1] == t.buckets[i];
  }
}
