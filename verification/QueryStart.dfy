/** A query that starts from the routing table starts with a valid list of peers. */
module QueryStart {
  import opened Collections
  import opened Ids
  import opened Ordered
  import opened RoutingSpec
  import opened RoutingInvariant
  import opened RoutingSearch
  import opened IterativeQuery
  import QuerySpec

  const QUERY_START_PEERS := 10

  type Found = seq<(Metric, BdId)>

  ghost predicate Distinct(s: Found) {
    forall i, j :: 0 <= i < j < |s| ==> !Similar(s[i].1, s[j].1)
  }

  lemma InsertDistinct(s: Found, key: Metric, id: BdId)
    requires Distinct(s) && forall e :: e in s ==> !Similar(e.1, id)
    ensures Distinct(Insert(s, key, id))
  {
    var u := UpperBound(s, key);
    forall i | 0 <= i < |s|
      ensures !Similar(s[i].1, id) && !Similar(id, s[i].1)
    {
      assert s[i] in s;
    }
  }

  lemma InsertFrom(s: Found, key: Metric, id: BdId, e: (Metric, BdId))
    requires e in Insert(s, key, id)
    ensures e in s || e == (key, id)
  {
    InsertAdds(s, key, id);
    assert e in multiset(Insert(s, key, id));
  }

  ghost predicate FromBucket(b: Bucket, e: (Metric, BdId)) {
    exists j :: 0 <= j < |b| && e.1 == b[j].id
  }

  lemma {:induction false} CollectBucketDistinct(b: Bucket, id: NodeId, wanted: bv32, found: Found)
    requires Distinct(found)
    requires forall e, j :: e in found && 0 <= j < |b| ==> !Similar(e.1, b[j].id)
    requires forall j, k :: 0 <= j < k < |b| ==> !Similar(b[j].id, b[k].id)
    ensures var c := CollectBucket(b, id, wanted, found);
            Distinct(c) && forall e :: e in c ==> e in found || FromBucket(b, e)
  {
    if b != [] {
      var n := |b| - 1;
      CollectBucketDistinct(b[..n], id, wanted, found);
      var before := CollectBucket(b[..n], id, wanted, found);
      forall e | e in before
        ensures !Similar(e.1, b[n].id) && (e in found || FromBucket(b, e))
      {
        if e !in found {
          var j :| 0 <= j < n && e.1 == b[..n][j].id;
          assert e.1 == b[j].id;
        }
      }
      InsertDistinct(before, Dist(id, b[n].id.id), b[n].id);
      forall e | e in CollectBucket(b, id, wanted, found)
        ensures e in found || FromBucket(b, e)
      {
        if Matches(b[n], wanted) {
          InsertFrom(before, Dist(id, b[n].id.id), b[n].id, e);
        }
      }
    }
  }

  ghost predicate FromBuckets(bs: seq<Bucket>, e: (Metric, BdId)) {
    exists i :: 0 <= i < |bs| && FromBucket(bs[i], e)
  }

  lemma {:induction false} CollectDistinct(bs: seq<Bucket>, id: NodeId, wanted: bv32, own: NodeId, size: nat, now: int)
    requires BucketsOk(bs, own, size, now)
    ensures var c := Collect(bs, id, wanted);
            Distinct(c) && forall e :: e in c ==> FromBuckets(bs, e)
  {
    if bs != [] {
      var n := |bs| - 1;
      TakeBuckets(bs, n, own, size, now);
      CollectDistinct(bs[..n], id, wanted, own, size, now);
      var before := Collect(bs[..n], id, wanted);
      assert BucketOk(bs[n], own, n, size, now);
      forall e | e in before
        ensures FromBuckets(bs, e)
        ensures forall j :: 0 <= j < |bs[n]| ==> !Similar(e.1, bs[n][j].id)
      {
        var i :| 0 <= i < n && FromBucket(bs[..n][i], e);
        assert FromBucket(bs[i], e) && BucketOk(bs[i], own, i, size, now);
      }
      CollectBucketDistinct(bs[n], id, wanted, before);
      forall e | e in Collect(bs, id, wanted)
        ensures FromBuckets(bs, e)
      {
        if e !in before {
          assert FromBucket(bs[n], e);
        }
      }
    }
  }

  /** The nearest peers of a table in order meet what a query asks of its start list. */
  lemma NearestStartsQuery(t: Table, now: int, id: NodeId)
    requires TableOk(t, now)
    ensures var start := IdsOf(Nearest(t, id, QUERY_START_PEERS, 0));
            |start| <= QuerySpec.CLOSEST_LIST_SIZE && Dissimilar(start)
  {
    CollectDistinct(t.buckets, id, 0, t.own, t.nodesPerBucket, now);
  }

}
