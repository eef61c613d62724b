/** What the operations keep of a query's lists, and why an entry leaves them. */
module QueryInvariant {
  import opened Ids
  import opened Ordered
  import opened RoutingSpec
  import opened QuerySpec

  /** Ordered, keyed by the true distance, and without two similar peers. */
  ghost predicate RankedOk(s: Ranked, target: NodeId) {
    && InOrder(s)
    && (forall i :: 0 <= i < |s| ==> s[i].0 == Dist(target, s[i].1.id.id))
    && (forall i, j :: 0 <= i < j < |s| ==> !Similar(s[i].1.id, s[j].1.id))
  }

  lemma {:induction false} LowerBoundSplits(s: Ranked, key: Metric)
    requires InOrder(s)
    ensures var l := LowerBound(s, key);
            && (forall i :: 0 <= i < l ==> Less(s[i].0, key))
            && (forall i :: l <= i < |s| ==> !Less(s[i].0, key))
  {
    if s != [] {
      if Less(s[0].0, key) {
        LowerBoundSplits(s[1..], key);
        assert forall i :: 0 < i < |s| ==> s[i] == s[1..][i - 1];
      } else {
        forall i | 0 <= i < |s|
          ensures !Less(s[i].0, key)
        {
          LessIsStrictTotal(s[0].0, s[i].0, key);
          LessIsStrictTotal(s[i].0, key, s[0].0);
        }
      }
    }
  }

  /** The entries between the bounds are those at exactly this distance. */
  lemma BoundsSplit(s: Ranked, key: Metric)
    requires InOrder(s)
    ensures var l, u := LowerBound(s, key), UpperBound(s, key);
            && l <= u
            && (forall i :: 0 <= i < |s| ==> (s[i].0 == key <==> l <= i < u))
            && (forall i :: 0 <= i < u ==> !Less(key, s[i].0))
            && (forall i :: u <= i < |s| ==> Less(key, s[i].0))
  {
    LowerBoundSplits(s, key);
    UpperBoundSplits(s, key);
    var l, u := LowerBound(s, key), UpperBound(s, key);
    forall i | 0 <= i < |s|
      ensures s[i].0 == key <==> !Less(s[i].0, key) && !Less(key, s[i].0)
      ensures !(Less(s[i].0, key) && Less(key, s[i].0))
    {
      LessIsStrictTotal(s[i].0, key, s[i].0);
      LessIsStrictTotal(key, s[i].0, key);
    }
  }

  /** Only an entry at the same distance can be similar. */
  lemma SimilarIsInRange(s: Ranked, target: NodeId, id: BdId, i: nat)
    requires RankedOk(s, target) && i < |s| && Similar(id, s[i].1.id)
    ensures LowerBound(s, Dist(target, id.id)) <= i < UpperBound(s, Dist(target, id.id))
  {
    BoundsSplit(s, Dist(target, id.id));
  }

  // ------------------------------------------------------- keeping the invariant

  lemma ReplaceKeeps(s: Ranked, target: NodeId, k: nat, p: Peer)
    requires RankedOk(s, target) && k < |s| && Similar(p.id, s[k].1.id)
    ensures RankedOk(s[k := (s[k].0, p)], target)
  {
    var t := s[k := (s[k].0, p)];
    assert forall i :: 0 <= i < |s| ==> t[i].0 == s[i].0;
  }

  lemma InsertKeeps(s: Ranked, target: NodeId, p: Peer)
    requires RankedOk(s, target) && forall i :: 0 <= i < |s| ==> !Similar(p.id, s[i].1.id)
    ensures RankedOk(Insert(s, Dist(target, p.id.id), p), target)
  {
    hide Less, UpperBound;
    InsertInOrder(s, Dist(target, p.id.id), p);
  }

  /** Part of a list, in the same order. */
  ghost predicate Within(t: Ranked, s: Ranked) {
    forall e :: e in t ==> e in s
  }

  lemma TakeKeeps(s: Ranked, target: NodeId, n: nat)
    requires RankedOk(s, target) && n <= |s|
    ensures RankedOk(s[..n], target) && Within(s[..n], s)
  {
  }

  lemma AnsweringStep(s: Ranked, u: nat, ts: int)
    requires 0 < u <= |s|
    ensures var a := Answering(s[..u - 1], ts);
            && a + s[u - 1..] == a + [s[u - 1]] + s[u..]
            && Answering(s[..u], ts) == if Unanswered(s[u - 1].1, ts) then a else a + [s[u - 1]]
  {
    assert s[..u][..u - 1] == s[..u - 1] && s[u - 1..] == [s[u - 1]] + s[u..];
  }

  /** Leaving out the unanswered entries of a front part keeps the list in order. */
  lemma {:induction false} AnsweringKeeps(s: Ranked, target: NodeId, u: nat, ts: int)
    requires RankedOk(s, target) && u <= |s|
    ensures RankedOk(Answering(s[..u], ts) + s[u..], target)
    ensures Within(Answering(s[..u], ts) + s[u..], s)
    decreases u
  {
    if u == 0 {
      assert Answering(s[..0], ts) + s[0..] == s;
    } else {
      AnsweringKeeps(s, target, u - 1, ts);
      AnsweringStep(s, u, ts);
      if Unanswered(s[u - 1].1, ts) {
        DropOneKeeps(Answering(s[..u - 1], ts), s[u - 1], s[u..], target);
      }
    }
  }

  lemma DropOneKeeps(a: Ranked, e: (Metric, Peer), b: Ranked, target: NodeId)
    requires RankedOk(a + [e] + b, target)
    ensures RankedOk(a + b, target) && Within(a + b, a + [e] + b)
  {
    var s := a + [e] + b;
    var t := a + b;
    assert forall i :: 0 <= i < |t| ==> t[i] == s[if i < |a| then i else i + 1];
  }

  lemma TouchStaysSimilar(p: Peer, id: BdId, mode: bv32, ts: int)
    ensures Similar(TouchClosest(p, id, mode, ts).id, p.id)
  {
  }

  /** The list that a new entry is put into. */
  function Room(c: Ranked, dist: Metric, ts: int): Ranked {
    var u := UpperBound(c, dist);
    Front(Answering(c[..u], ts) + c[u..], CLOSEST_LIST_SIZE - 1)
  }

  lemma RoomOk(c: Ranked, target: NodeId, id: BdId, ts: int)
    requires RankedOk(c, target)
    ensures var room := Room(c, Dist(target, id.id), ts);
            RankedOk(room, target) && Within(room, c) && |room| < CLOSEST_LIST_SIZE
  {
    var dist := Dist(target, id.id);
    var u := UpperBound(c, dist);
    var left := Answering(c[..u], ts) + c[u..];
    AnsweringKeeps(c, target, u, ts);
    if |left| > CLOSEST_LIST_SIZE - 1 {
      TakeKeeps(left, target, CLOSEST_LIST_SIZE - 1);
    }
  }

  lemma NotFoundIsNew(c: Ranked, target: NodeId, id: BdId)
    requires RankedOk(c, target)
    requires var d := Dist(target, id.id); FindIn(c, LowerBound(c, d), UpperBound(c, d), id) == UpperBound(c, d)
    ensures forall i :: 0 <= i < |c| ==> !Similar(id, c[i].1.id)
  {
    forall i | 0 <= i < |c| && Similar(id, c[i].1.id)
      ensures false
    {
      SimilarIsInRange(c, target, id, i);
    }
  }

  /** Adding keeps the list in order, keyed by distance, free of similar peers and at most 15 long. */
  lemma AddClosestKeeps(c: Ranked, target: NodeId, id: BdId, mode: bv32, ts: int)
    requires RankedOk(c, target) && |c| <= CLOSEST_LIST_SIZE
    ensures var c' := AddClosest(c, target, id, mode, ts).0;
            RankedOk(c', target) && |c'| <= CLOSEST_LIST_SIZE
  {
    var dist := Dist(target, id.id);
    var l, u := LowerBound(c, dist), UpperBound(c, dist);
    BoundsSplit(c, dist);
    var k := FindIn(c, l, u, id);
    if |Answering(c[..u], ts)| < CLOSEST_LIST_SIZE {
      if k < u {
        TouchStaysSimilar(c[k].1, id, mode, ts);
        ReplaceKeeps(c, target, k, TouchClosest(c[k].1, id, mode, ts));
      } else {
        NotFoundIsNew(c, target, id);
        RoomOk(c, target, id, ts);
        NewIsUnlike(Room(c, dist, ts), c, id);
        InsertKeeps(Room(c, dist, ts), target, NewClosest(id, mode, ts));
        InsertAdds(Room(c, dist, ts), dist, NewClosest(id, mode, ts));
      }
    }
  }

  lemma NewIsUnlike(room: Ranked, c: Ranked, id: BdId)
    requires Within(room, c) && forall i :: 0 <= i < |c| ==> !Similar(id, c[i].1.id)
    ensures forall i :: 0 <= i < |room| ==> !Similar(id, room[i].1.id)
  {
    forall i | 0 <= i < |room|
      ensures !Similar(id, room[i].1.id)
    {
      assert room[i] in c;
      var j :| 0 <= j < |c| && c[j] == room[i];
    }
  }

  // ------------------------------------------------------------- why one leaves

  /** It was asked, has not answered since, and more than ten seconds have passed. */
  predicate Silent(p: Peer, ts: int) {
    p.lastSend != 0 && p.lastSend > p.lastRecv && ts > p.lastSend + 10
  }

  lemma {:induction false} AnsweringHolds(s: Ranked, ts: int, e: (Metric, Peer))
    ensures e in Answering(s, ts) <==> e in s && !Unanswered(e.1, ts)
    ensures |Answering(s, ts)| <= |s|
  {
    if s != [] {
      AnsweringHolds(s[..|s| - 1], ts, e);
      assert s == s[..|s| - 1] + [s[|s| - 1]];
    }
  }

  /** An answering entry that is not farther than the newcomer stays. */
  lemma CloserStays(c: Ranked, target: NodeId, id: BdId, mode: bv32, ts: int, i: nat)
    requires RankedOk(c, target) && i < UpperBound(c, Dist(target, id.id)) && !Similar(id, c[i].1.id)
    requires !Unanswered(c[i].1, ts)
    ensures c[i] in AddClosest(c, target, id, mode, ts).0
  {
    var dist := Dist(target, id.id);
    var u := UpperBound(c, dist);
    var closer := Answering(c[..u], ts);
    if |closer| < CLOSEST_LIST_SIZE {
      var k := FindIn(c, LowerBound(c, dist), u, id);
      if k < u {
        var c' := AddClosest(c, target, id, mode, ts).0;
        assert c'[i] == c[i];
      } else {
        assert c[..u][i] == c[i];
        AnsweringHolds(c[..u], ts, c[i]);
        RoomKeepsCloser(c, dist, ts, c[i]);
        InList(Room(c, dist, ts), dist, NewClosest(id, mode, ts), c[i]);
      }
    }
  }

  /**
   * An entry that a newcomer displaces was asked and has not answered for more
   * than ten seconds, or it is strictly farther from the target than the newcomer.
   */
  lemma DisplacedForCause(c: Ranked, target: NodeId, id: BdId, mode: bv32, ts: int, i: nat)
    requires RankedOk(c, target) && i < |c| && !Similar(id, c[i].1.id)
    ensures c[i] !in AddClosest(c, target, id, mode, ts).0 ==>
              Silent(c[i].1, ts) || Less(Dist(target, id.id), c[i].0)
  {
    BoundsSplit(c, Dist(target, id.id));
    if i < UpperBound(c, Dist(target, id.id)) && !Unanswered(c[i].1, ts) {
      CloserStays(c, target, id, mode, ts, i);
    }
  }

  lemma RoomKeepsCloser(c: Ranked, dist: Metric, ts: int, e: (Metric, Peer))
    requires var closer := Answering(c[..UpperBound(c, dist)], ts); e in closer && |closer| < CLOSEST_LIST_SIZE
    ensures e in Room(c, dist, ts)
  {
    var u := UpperBound(c, dist);
    var closer := Answering(c[..u], ts);
    var j :| 0 <= j < |closer| && closer[j] == e;
    assert (closer + c[u..])[j] == e;
    assert Room(c, dist, ts)[j] == e;
  }

  lemma InList(s: Ranked, key: Metric, p: Peer, e: (Metric, Peer))
    requires e in s
    ensures e in Insert(s, key, p)
  {
    InsertAdds(s, key, p);
    assert e in multiset(s);
    assert e in multiset(Insert(s, key, p));
  }

  lemma {:induction false} AnsweringCount(s: Ranked, ts: int)
    ensures |Answering(s, ts)| <= |s|
    ensures |Answering(s, ts)| == |s| <==> forall i :: 0 <= i < |s| ==> !Unanswered(s[i].1, ts)
  {
    if s != [] {
      var n := |s| - 1;
      AnsweringCount(s[..n], ts);
      assert forall i :: 0 <= i < n ==> s[..n][i] == s[i];
    }
  }

  /** Fifteen peers are listed, nobody of them is silent, and nobody is farther than `d`. */
  ghost predicate Closed(c: Ranked, d: Metric, ts: int) {
    |c| == 15 && forall i :: 0 <= i < |c| ==> !Silent(c[i].1, ts) && !Less(d, c[i].0)
  }

  /** A message is refused exactly if the list is full of peers that are not silent and not farther. */
  lemma RefusedExactly(c: Ranked, target: NodeId, id: BdId, mode: bv32, ts: int)
    requires RankedOk(c, target) && |c| <= CLOSEST_LIST_SIZE
    ensures !AddClosest(c, target, id, mode, ts).1
            <==> Closed(c, Dist(target, id.id), ts)
  {
    hide Less, LowerBound, UpperBound, TouchClosest, NewClosest, FindIn, Insert, Similar, Dist;
    var dist := Dist(target, id.id);
    var u := UpperBound(c, dist);
    BoundsSplit(c, dist);
    AnsweringCount(c[..u], ts);
    assert forall i :: 0 <= i < u ==> c[..u][i] == c[i];
    if u < |c| {
      assert Less(dist, c[u].0);
    }
  }

  ghost predicate HasPeer(c: Ranked, id: BdId) {
    exists i :: 0 <= i < |c| && Similar(id, c[i].1.id)
  }

  /** Whoever is not refused is in the list afterwards. */
  lemma AddedIsThere(c: Ranked, target: NodeId, id: BdId, mode: bv32, ts: int)
    requires AddClosest(c, target, id, mode, ts).1
    ensures HasPeer(AddClosest(c, target, id, mode, ts).0, id)
  {
    var dist := Dist(target, id.id);
    var l, u := LowerBound(c, dist), UpperBound(c, dist);
    var c' := AddClosest(c, target, id, mode, ts).0;
    var k := FindIn(c, l, u, id);
    if k < u {
      TouchStaysSimilar(c[k].1, id, mode, ts);
      assert Similar(id, c'[k].1.id);
    } else {
      var room := Front(Answering(c[..u], ts) + c[u..], CLOSEST_LIST_SIZE - 1);
      assert c'[UpperBound(room, dist)] == (dist, NewClosest(id, mode, ts));
    }
  }

  // ---------------------------------------------------------- potential peers

  /** What is trimmed is an end of the list, beyond the tenth and beyond the last of the closest peers. */
  lemma {:induction false} TrimIsFront(p: Ranked, last: Metric)
    ensures var t := TrimToClosest(p, last);
            && |t| <= |p| && t == p[..|t|]
            && (|t| > NUM_QUERY_NODES ==> !Less(last, t[|t| - 1].0))
            && (|t| < |p| ==> |t| >= NUM_QUERY_NODES)
            && forall i :: |t| <= i < |p| ==> Less(last, p[i].0)
  {
    if |p| > NUM_QUERY_NODES && Less(last, p[|p| - 1].0) {
      var n := |p| - 1;
      TrimIsFront(p[..n], last);
      var t := TrimToClosest(p, last);
      assert p[..n][..|t|] == p[..|t|];
      forall i | |t| <= i < |p|
        ensures Less(last, p[i].0)
      {
        if i < n {
          assert p[..n][i] == p[i];
        }
      }
    }
  }

  lemma TrimKeeps(p: Ranked, target: NodeId, last: Metric)
    requires RankedOk(p, target)
    ensures RankedOk(TrimToClosest(p, last), target)
    ensures |TrimToClosest(p, last)| > NUM_QUERY_NODES ==>
              !Less(last, TrimToClosest(p, last)[|TrimToClosest(p, last)| - 1].0)
  {
    TrimIsFront(p, last);
    TakeKeeps(p, target, |TrimToClosest(p, last)|);
  }

  lemma AddPotentialKeeps(p: Ranked, closest: Ranked, target: NodeId, peer: Peer)
    requires RankedOk(p, target) && (closest != [] || |p| < NUM_QUERY_NODES)
    requires forall i :: 0 <= i < |p| ==> !Similar(peer.id, p[i].1.id)
    ensures var grown := Insert(p, Dist(target, peer.id.id), peer);
            && |grown| == |p| + 1 && RankedOk(grown, target)
            && (|grown| > NUM_QUERY_NODES ==>
                 var t := TrimToClosest(grown, closest[|closest| - 1].0);
                 RankedOk(t, target) && (|t| > NUM_QUERY_NODES ==> !Less(closest[|closest| - 1].0, t[|t| - 1].0)))
  {
    hide Less, Insert, TrimToClosest;
    InsertKeeps(p, target, peer);
    InsertAdds(p, Dist(target, peer.id.id), peer);
    if |p| + 1 > NUM_QUERY_NODES {
      TrimKeeps(Insert(p, Dist(target, peer.id.id), peer), target, closest[|closest| - 1].0);
    }
  }

  lemma NewPotentialKeeps(p: Ranked, closest: Ranked, target: NodeId, peer: Peer, t: Ranked)
    requires RankedOk(p, target) && (closest != [] || |p| < NUM_QUERY_NODES)
    requires forall i :: 0 <= i < |p| ==> !Similar(peer.id, p[i].1.id)
    requires var grown := Insert(p, Dist(target, peer.id.id), peer);
             t == if |p| + 1 <= NUM_QUERY_NODES then grown else TrimToClosest(grown, closest[|closest| - 1].0)
    ensures RankedOk(t, target)
    ensures |t| > NUM_QUERY_NODES ==> closest != [] && !Less(closest[|closest| - 1].0, t[|t| - 1].0)
  {
    hide TrimToClosest, RankedOk, Similar, Dist, Insert, Less;
    AddPotentialKeeps(p, closest, target, peer);
  }

  lemma TouchPotentialStays(p: Peer, id: BdId, mode: bv32, how: AddType, now: int)
    ensures Similar(TouchPotential(p, id, mode, how, now).0.id, p.id)
  {
  }

  lemma KnownPotentialKeeps(p: Ranked, target: NodeId, k: nat, id: BdId, mode: bv32, how: AddType, now: int)
    requires RankedOk(p, target) && k < |p|
    ensures RankedOk(p[k := (p[k].0, TouchPotential(p[k].1, id, mode, how, now).0)], target)
  {
    TouchPotentialStays(p[k].1, id, mode, how, now);
    ReplaceKeeps(p, target, k, TouchPotential(p[k].1, id, mode, how, now).0);
  }

  /** A peer is worth a ping unless it is in the closest list, or ten or more peers are all strictly closer. */
  lemma WorthyExactly(c: Ranked, target: NodeId, id: BdId)
    requires RankedOk(c, target)
    ensures Worthy(c, target, id)
            <==> !HasPeer(c, id)
                 && (|c| < NUM_QUERY_NODES || exists i :: 0 <= i < |c| && !Less(c[i].0, Dist(target, id.id)))
  {
    var dist := Dist(target, id.id);
    var l, u := LowerBound(c, dist), UpperBound(c, dist);
    LowerBoundSplits(c, dist);
    if HasPeer(c, id) {
      var i :| 0 <= i < |c| && Similar(id, c[i].1.id);
      SimilarIsInRange(c, target, id, i);
    }
    if l < |c| {
      assert !Less(c[l].0, dist);
    }
  }

  /**
   * Potential peers stay ordered, keyed and distinct; a longer list than ten
   * reaches no farther than the closest ones.
   */
  lemma UpdatePotentialKeeps(p: Ranked, closest: Ranked, target: NodeId, id: BdId, mode: bv32, how: AddType, now: int)
    requires RankedOk(p, target) && (closest != [] || |p| < NUM_QUERY_NODES || IsKnown(p, target, id))
    ensures var t := UpdatePotential(p, closest, target, id, mode, how, now).0;
            && RankedOk(t, target)
            && (|t| > |p| && |t| > NUM_QUERY_NODES ==> !Less(closest[|closest| - 1].0, t[|t| - 1].0))
  {
    hide Less, LowerBound, UpperBound, FindIn, TrimToClosest, Insert;
    var dist := Dist(target, id.id);
    var k := FindIn(p, LowerBound(p, dist), UpperBound(p, dist), id);
    if k < UpperBound(p, dist) {
      KnownPotentialKeeps(p, target, k, id, mode, how, now);
    } else {
      BoundsSplit(p, dist);
      NotFoundIsNew(p, target, id);
      NewPotentialKeeps(p, closest, target, Peer(id, mode, if how.FindNodeResponse? then now else 0, now, now, 0),
                        UpdatePotential(p, closest, target, id, mode, how, now).0);
    }
  }
}
