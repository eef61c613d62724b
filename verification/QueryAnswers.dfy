/**
 * What a query records of the answers it gets, whom a newcomer displaces, and
 * that a query whose target has answered ends in success.  The flags and the
 * periods are written as the numbers they have in the program.
 */
module QueryAnswers {
  import opened Ids
  import opened Ordered
  import opened RoutingSpec
  import opened QuerySpec
  import opened QueryInvariant
  import opened IterativeQuery

  // ------------------------------------------------- an answer of a listed peer

  /** The entry `p` after a message of its peer; one that carries nodes (flag 4) is an answer. */
  predicate HeardAs(p: Peer, q: Peer, id: BdId, mode: bv32, ts: int) {
    && q.lastSend == p.lastSend && q.found == p.found
    && (if mode & 4 != 0 then q.lastRecv == ts && q.flags == p.flags | mode
        else q.lastRecv == p.lastRecv && q.flags == p.flags)
    && q.id == (if mode != 0 then id else p.id)
    && q.extra == (if mode != 0 && id.addr.port != p.id.addr.port then p.extra | 1 else p.extra)
  }

  lemma TouchedIsHeard(p: Peer, id: BdId, mode: bv32, ts: int)
    requires Similar(id, p.id)
    ensures HeardAs(p, TouchClosest(p, id, mode, ts), id, mode, ts)
  {
  }

  lemma FoundOnlyOnce(c: Ranked, target: NodeId, id: BdId, i: nat)
    requires RankedOk(c, target) && i < |c| && Similar(id, c[i].1.id)
    ensures var d := Dist(target, id.id);
            c[i].0 == d && FindIn(c, LowerBound(c, d), UpperBound(c, d), id) == i < UpperBound(c, d)
  {
    hide Less, LowerBound, UpperBound;
    SimilarIsInRange(c, target, id, i);
  }

  /**
   * A message of a listed peer changes its entry and no other, unless the list
   * is closed at its distance: then even the answer of a listed peer is lost.
   */
  lemma AnswerIsRecorded(c: Ranked, target: NodeId, id: BdId, mode: bv32, ts: int, i: nat)
    requires RankedOk(c, target) && |c| <= 15 && i < |c| && Similar(id, c[i].1.id)
    ensures var (c', added) := AddClosest(c, target, id, mode, ts);
            if Closed(c, c[i].0, ts) then !added && c' == c
            else added && |c'| == |c| && c' == c[i := (c[i].0, c'[i].1)] && HeardAs(c[i].1, c'[i].1, id, mode, ts)
  {
    hide Less, LowerBound, UpperBound, TouchClosest, HeardAs, RankedOk, FindIn;
    RefusedExactly(c, target, id, mode, ts);
    FoundOnlyOnce(c, target, id, i);
    TouchedIsHeard(c[i].1, id, mode, ts);
  }

  // -------------------------------------------------------------- a newcomer

  /** The entry made for a peer that was not listed. */
  function Newcomer(target: NodeId, id: BdId, mode: bv32, ts: int): (Metric, Peer) {
    (Dist(target, id.id), Peer(id, mode, 0, if mode & 4 != 0 then ts else 0, ts, 0))
  }

  lemma NewIsInserted(c: Ranked, target: NodeId, id: BdId, mode: bv32, ts: int)
    requires RankedOk(c, target) && !HasPeer(c, id) && AddClosest(c, target, id, mode, ts).1
    ensures var n := Newcomer(target, id, mode, ts);
            AddClosest(c, target, id, mode, ts).0 == Insert(Room(c, n.0, ts), n.0, n.1)
  {
    hide Less, LowerBound, UpperBound, Insert, Answering;
  }

  /** Whoever is in the list afterwards was there before or is the newcomer, which is there. */
  lemma NewcomerIsThere(c: Ranked, target: NodeId, id: BdId, mode: bv32, ts: int)
    requires RankedOk(c, target) && !HasPeer(c, id) && AddClosest(c, target, id, mode, ts).1
    ensures var n, c' := Newcomer(target, id, mode, ts), AddClosest(c, target, id, mode, ts).0;
            n in c' && forall e :: e in c' ==> e in c || e == n
  {
    hide Less, UpperBound, LowerBound, AddClosest, HasPeer, RankedOk, Room;
    var n, c' := Newcomer(target, id, mode, ts), AddClosest(c, target, id, mode, ts).0;
    NewIsInserted(c, target, id, mode, ts);
    RoomOk(c, target, id, ts);
    InsertAdds(Room(c, n.0, ts), n.0, n.1);
    assert n in multiset(c');
    forall e | e in c'
      ensures e in c || e == n
    {
      assert e in multiset(c');
    }
  }

  lemma InsertedIn(s: Ranked, key: Metric, p: Peer, e: (Metric, Peer))
    ensures e in Insert(s, key, p) <==> e in s || e == (key, p)
  {
    InsertAdds(s, key, p);
    assert e in multiset(Insert(s, key, p)) <==> e in Insert(s, key, p);
    assert e in multiset(s) <==> e in s;
  }

  lemma NotNewcomer(c: Ranked, target: NodeId, id: BdId, mode: bv32, ts: int, i: nat)
    requires !HasPeer(c, id) && i < |c|
    ensures c[i] != Newcomer(target, id, mode, ts) && !Similar(id, c[i].1.id)
  {
  }

  /** The peers that are left, before the list is cut to make room. */
  function Left(c: Ranked, dist: Metric, ts: int): Ranked {
    var u := UpperBound(c, dist);
    Answering(c[..u], ts) + c[u..]
  }

  lemma StaysInRoom(c: Ranked, target: NodeId, id: BdId, mode: bv32, ts: int, i: nat)
    requires RankedOk(c, target) && !HasPeer(c, id) && AddClosest(c, target, id, mode, ts).1 && i < |c|
    ensures c[i] in AddClosest(c, target, id, mode, ts).0 <==> c[i] in Room(c, Dist(target, id.id), ts)
  {
    hide Less, UpperBound, LowerBound, AddClosest, HasPeer, RankedOk, Room;
    var n := Newcomer(target, id, mode, ts);
    NewIsInserted(c, target, id, mode, ts);
    NotNewcomer(c, target, id, mode, ts, i);
    InsertedIn(Room(c, n.0, ts), n.0, n.1, c[i]);
  }

  lemma SilentGoes(c: Ranked, dist: Metric, ts: int, i: nat)
    requires InOrder(c) && i < |c| && !Less(dist, c[i].0) && c[i] in Room(c, dist, ts)
    ensures !Silent(c[i].1, ts)
  {
    hide Less;
    UpperBoundSplits(c, dist);
    var u := UpperBound(c, dist);
    assert c[i] in Answering(c[..u], ts) + c[u..];
    assert forall e :: e in c[u..] ==> Less(dist, e.0);
    AnsweringHolds(c[..u], ts, c[i]);
  }

  /** Of the peers that are not farther than an accepted newcomer exactly the silent ones go. */
  lemma SilentGo(c: Ranked, target: NodeId, id: BdId, mode: bv32, ts: int, i: nat)
    requires RankedOk(c, target) && !HasPeer(c, id) && AddClosest(c, target, id, mode, ts).1
    requires i < |c| && !Less(Dist(target, id.id), c[i].0)
    ensures c[i] in AddClosest(c, target, id, mode, ts).0 <==> !Silent(c[i].1, ts)
  {
    hide Less, UpperBound, LowerBound, AddClosest, HasPeer, Room;
    var dist := Dist(target, id.id);
    StaysInRoom(c, target, id, mode, ts, i);
    if c[i] in Room(c, dist, ts) {
      SilentGoes(c, dist, ts, i);
    } else if !Silent(c[i].1, ts) {
      NotNewcomer(c, target, id, mode, ts, i);
      BoundsSplit(c, dist);
      CloserStays(c, target, id, mode, ts, i);
    }
  }

  lemma CutIsEnd(c: Ranked, target: NodeId, dist: Metric, ts: int, i: nat, j: nat)
    requires RankedOk(c, target) && UpperBound(c, dist) <= i <= j < |c| && c[i] !in Room(c, dist, ts)
    ensures |Room(c, dist, ts)| == 14 && c[j] !in Room(c, dist, ts)
  {
    hide Less, UpperBound, Answering, RankedOk;
    var u, left, room := UpperBound(c, dist), Left(c, dist, ts), Room(c, dist, ts);
    var a := |Answering(c[..u], ts)|;
    AnsweringKeeps(c, target, u, ts);
    assert left[a + i - u] == c[i] && left[a + j - u] == c[j];
    NotInFront(left, a + i - u, |room|);
    StillNotInFront(left, target, a + j - u, |room|);
  }

  lemma NotInFront(s: Ranked, x: nat, n: nat)
    requires x < |s| && n <= |s| && s[x] !in s[..n]
    ensures n <= x
  {
  }

  lemma StillNotInFront(s: Ranked, target: NodeId, x: nat, n: nat)
    requires RankedOk(s, target) && n <= x < |s|
    ensures s[x] !in s[..n]
  {
    assert forall m :: 0 <= m < n ==> !Similar(s[m].1.id, s[x].1.id);
    assert Similar(s[x].1.id, s[x].1.id);
  }

  /** Of the farther peers only an end of the list goes, and only if the list is full then. */
  lemma FarthestGo(c: Ranked, target: NodeId, id: BdId, mode: bv32, ts: int, i: nat, j: nat)
    requires RankedOk(c, target) && !HasPeer(c, id) && AddClosest(c, target, id, mode, ts).1
    requires i <= j < |c| && Less(Dist(target, id.id), c[i].0) && c[i] !in AddClosest(c, target, id, mode, ts).0
    ensures |AddClosest(c, target, id, mode, ts).0| == 15 && c[j] !in AddClosest(c, target, id, mode, ts).0
  {
    hide Less, UpperBound, LowerBound, AddClosest, HasPeer, Room, RankedOk;
    var n := Newcomer(target, id, mode, ts);
    StaysInRoom(c, target, id, mode, ts, i);
    StaysInRoom(c, target, id, mode, ts, j);
    FartherIndex(c, target, n.0, i);
    CutIsEnd(c, target, n.0, ts, i, j);
    NewIsInserted(c, target, id, mode, ts);
    InsertAdds(Room(c, n.0, ts), n.0, n.1);
  }

  lemma FartherIndex(c: Ranked, target: NodeId, dist: Metric, i: nat)
    requires RankedOk(c, target) && i < |c| && Less(dist, c[i].0)
    ensures UpperBound(c, dist) <= i
  {
    hide Less;
    UpperBoundSplits(c, dist);
  }

  // ------------------------------------------------------- whom the query asks

  /** The query asks the closest peer that was never asked or, going on when idle, asked longer ago than `retry`. */
  lemma AsksClosest(c: Ranked, idle: bool, retry: int, now: int)
    ensures var i := FirstAskable(c, idle, retry, now);
            && (i < |c| ==> c[i].1.lastSend == 0 || (idle && now > c[i].1.lastSend + retry))
            && forall j :: 0 <= j < i ==> c[j].1.lastSend != 0 && (idle ==> now <= c[j].1.lastSend + retry)
  {
  }

  /** The pause before an idle query asks again: half its age, between ten and twenty minutes. */
  lemma RetryInBounds(idleRetry: int, queryTS: int, now: int)
    requires 600 <= idleRetry <= 1200 && queryTS <= now
    ensures var r, half := Retry(idleRetry, queryTS, now), (now - queryTS) / 2;
            && idleRetry <= r <= 1200 && (half <= 1200 ==> half <= r)
            && (r == idleRetry || r == half || (r == 1200 && half > 1200))
  {
  }

  /**
   * When a query with nobody to ask ends: after five minutes in any case, and
   * from ten seconds on if there are ten peers and the ten closest have all
   * answered, ten seconds ago or more.
   */
  lemma EndsExactly(c: Ranked, age: int, now: int)
    ensures Ends(c, age, now)
            <==> age > 300
                 || (age >= 10 && |c| >= 10
                     && forall i :: 0 <= i < 10 ==> c[i].1.lastRecv != 0 && now >= c[i].1.lastRecv + 10)
  {
    if |c| >= 10 && !Unfinished(c, now) {
      forall i | 0 <= i < 10
        ensures !Pending(c[i].1, now)
      {
      }
    }
  }

  // ------------------------------------------- the target has answered the query

  /** The target heads the list and has answered what it was asked. */
  predicate Settled(c: Ranked, target: NodeId) {
    c != [] && c[0].1.id.id == target && c[0].1.lastRecv != 0 && c[0].1.lastSend <= c[0].1.lastRecv
  }

  /** Every peer in the list that bears the id of the target is at this address. */
  ghost predicate OnlyAddress(c: Ranked, target: NodeId, id: BdId) {
    forall i :: 0 <= i < |c| && c[i].1.id.id == target ==> Similar(id, c[i].1.id)
  }

  lemma NothingCloser(t: NodeId, x: NodeId)
    ensures !Less(Dist(t, x), Dist(t, t)) && (Less(Dist(t, t), Dist(t, x)) <==> x != t)
  {
    DistIdentity(t, t);
    DistIdentity(t, x);
    LessIsNumeric(Dist(t, x).data, Dist(t, t).data);
    LessIsNumeric(Dist(t, t).data, Dist(t, x).data);
  }

  lemma TargetIsFirst(c: Ranked, target: NodeId, i: nat)
    requires RankedOk(c, target) && i < |c| && c[i].1.id.id == target
    ensures c[0].1.id.id == target
  {
    hide Less;
    NothingCloser(target, c[0].1.id.id);
  }

  lemma NotClosedToTarget(c: Ranked, target: NodeId, id: BdId, ts: int)
    requires RankedOk(c, target) && id.id == target && OnlyAddress(c, target, id)
    ensures !Closed(c, Dist(target, target), ts)
  {
    hide Less, Dist;
    if |c| == 15 {
      NothingCloser(target, c[0].1.id.id);
      NothingCloser(target, c[1].1.id.id);
      assert c[0].0 == Dist(target, c[0].1.id.id) && c[1].0 == Dist(target, c[1].1.id.id);
    }
  }

  lemma InsertedFirst(s: Ranked, key: Metric, p: Peer)
    requires s == [] || Less(key, s[0].0)
    ensures Insert(s, key, p) == [(key, p)] + s
  {
  }

  lemma NewTargetIsFirst(c: Ranked, target: NodeId, id: BdId, mode: bv32, ts: int)
    requires RankedOk(c, target) && id.id == target && OnlyAddress(c, target, id) && !HasPeer(c, id)
    requires AddClosest(c, target, id, mode, ts).1
    ensures var c' := AddClosest(c, target, id, mode, ts).0; c' != [] && c'[0] == Newcomer(target, id, mode, ts)
  {
    hide Less, Dist, AddClosest, Room, RankedOk, Insert;
    var n := Newcomer(target, id, mode, ts);
    var room := Room(c, n.0, ts);
    RoomOk(c, target, id, ts);
    NewIsInserted(c, target, id, mode, ts);
    if room != [] {
      assert room[0] in c;
      var i :| 0 <= i < |c| && c[i] == room[0];
      ListedKey(c, target, i);
      NothingCloser(target, c[i].1.id.id);
    }
    InsertedFirst(room, n.0, n.1);
  }

  lemma ListedKey(c: Ranked, target: NodeId, i: nat)
    requires RankedOk(c, target) && i < |c|
    ensures c[i].0 == Dist(target, c[i].1.id.id)
  {
  }

  /** An answer of the target, if it is known by one address only, settles the query. */
  lemma AnswerSettles(c: Ranked, target: NodeId, id: BdId, mode: bv32, ts: int)
    requires RankedOk(c, target) && |c| <= 15 && id.id == target && OnlyAddress(c, target, id)
    requires mode & 4 != 0 && ts != 0 && (c != [] ==> c[0].1.lastSend <= ts) && 0 <= ts
    ensures var c' := AddClosest(c, target, id, mode, ts).0;
            && Settled(c', target) && c'[0].1.lastRecv == ts
            && c'[0].1.lastSend == if HasPeer(c, id) then c[0].1.lastSend else 0
  {
    hide Less, Dist, AddClosest, RankedOk, Closed;
    RefusedExactly(c, target, id, mode, ts);
    NotClosedToTarget(c, target, id, ts);
    if HasPeer(c, id) {
      var i :| 0 <= i < |c| && Similar(id, c[i].1.id);
      TargetIsFirst(c, target, i);
      ListedKey(c, target, 0);
      AnswerIsRecorded(c, target, id, mode, ts, 0);
    } else {
      NewTargetIsFirst(c, target, id, mode, ts);
    }
  }

  /** Whatever message comes next, a settled query stays settled. */
  lemma MessageKeepsSettled(c: Ranked, target: NodeId, id: BdId, mode: bv32, ts: int)
    requires RankedOk(c, target) && |c| <= 15 && Settled(c, target) && ts != 0 && c[0].1.lastSend <= ts
    ensures var c' := AddClosest(c, target, id, mode, ts).0;
            Settled(c', target) && c'[0].1.lastSend == c[0].1.lastSend
  {
    hide Less, Dist, AddClosest, RankedOk, Closed, Newcomer, HeardAs;
    var c' := AddClosest(c, target, id, mode, ts).0;
    RefusedExactly(c, target, id, mode, ts);
    if HasPeer(c, id) {
      var i :| 0 <= i < |c| && Similar(id, c[i].1.id);
      AnswerIsRecorded(c, target, id, mode, ts, i);
      if i == 0 && AddClosest(c, target, id, mode, ts).1 {
        HeardStaysAnswered(c[0].1, c'[0].1, id, mode, ts);
      }
    } else if AddClosest(c, target, id, mode, ts).1 {
      FirstIsFirst(c, target, id, mode, ts);
    } else {
      RefusedKeeps(c, target, id, mode, ts);
    }
  }

  lemma RefusedKeeps(c: Ranked, target: NodeId, id: BdId, mode: bv32, ts: int)
    requires !AddClosest(c, target, id, mode, ts).1
    ensures AddClosest(c, target, id, mode, ts).0 == c
  {
    hide TouchClosest, Answering, LowerBound, UpperBound;
  }

  lemma HeardStaysAnswered(p: Peer, q: Peer, id: BdId, mode: bv32, ts: int)
    requires HeardAs(p, q, id, mode, ts) && Similar(id, p.id)
    requires p.lastRecv != 0 && p.lastSend <= p.lastRecv && ts != 0 && p.lastSend <= ts
    ensures q.id.id == p.id.id && q.lastRecv != 0 && q.lastSend == p.lastSend <= q.lastRecv
  {
  }

  lemma FirstInRoom(c: Ranked, dist: Metric, ts: int)
    requires c != [] && !Less(dist, c[0].0) && !Silent(c[0].1, ts)
    ensures Room(c, dist, ts) != [] && Room(c, dist, ts)[0] == c[0]
  {
    hide Less;
    var u := UpperBound(c, dist);
    HeadFirst(c, u, ts);
  }

  lemma InsertedBehind(s: Ranked, key: Metric, p: Peer)
    requires s != [] && !Less(key, s[0].0)
    ensures Insert(s, key, p)[0] == s[0]
  {
  }

  lemma FirstIsFirst(c: Ranked, target: NodeId, id: BdId, mode: bv32, ts: int)
    requires RankedOk(c, target) && !HasPeer(c, id) && AddClosest(c, target, id, mode, ts).1
    requires c != [] && c[0].1.id.id == target && !Silent(c[0].1, ts)
    ensures var c' := AddClosest(c, target, id, mode, ts).0; c' != [] && c'[0] == c[0]
  {
    hide Less, Dist, Room, RankedOk, HasPeer, Insert;
    var n := Newcomer(target, id, mode, ts);
    NewIsInserted(c, target, id, mode, ts);
    ListedKey(c, target, 0);
    NothingCloser(target, id.id);
    FirstInRoom(c, n.0, ts);
    InsertedBehind(Room(c, n.0, ts), n.0, n.1);
    InsertAdds(Room(c, n.0, ts), n.0, n.1);
  }

  // -------------------------------------------------------------------- runs

  /** A message of some peer, or the query's turn to ask. */
  datatype Step = Message(id: BdId, mode: bv32, ts: int) | Turn(retry: int, ts: int)

  function Do(c: Ranked, target: NodeId, idle: bool, s: Step): Ranked {
    match s
    case Message(id, mode, ts) => AddClosest(c, target, id, mode, ts).0
    case Turn(retry, ts) =>
      var i := FirstAskable(c, idle, retry, ts);
      if i == |c| then c else c[i := (c[i].0, c[i].1.(lastSend := ts))]
  }

  function Play(c: Ranked, target: NodeId, idle: bool, steps: seq<Step>): Ranked {
    if steps == [] then c
    else Do(Play(c, target, idle, steps[..|steps| - 1]), target, idle, steps[|steps| - 1])
  }

  /** Whatever potential peers are left, this is the state in which the query ends. */
  predicate Succeeds(c: Ranked, target: NodeId, left: Ranked) {
    Found(target, c) && Outcome(target, c, left) == Success
  }

  /** In this turn the head of the list is not asked. */
  predicate SparesFirst(c: Ranked, idle: bool, s: Step) {
    s.Turn? ==> FirstAskable(c, idle, s.retry, s.ts) != 0
  }

  predicate SparesAlways(c: Ranked, target: NodeId, idle: bool, steps: seq<Step>) {
    steps != [] ==>
      var last := |steps| - 1;
      && SparesAlways(c, target, idle, steps[..last])
      && SparesFirst(Play(c, target, idle, steps[..last]), idle, steps[last])
  }

  predicate NotBefore(steps: seq<Step>, ts: int) {
    forall i :: 0 <= i < |steps| ==> ts <= steps[i].ts
  }

  lemma DoKeeps(c: Ranked, target: NodeId, idle: bool, s: Step)
    requires RankedOk(c, target) && |c| <= 15
    ensures RankedOk(Do(c, target, idle, s), target) && |Do(c, target, idle, s)| <= 15
  {
    hide AddClosest, RankedOk;
    match s {
      case Message(id, mode, ts) => AddClosestKeeps(c, target, id, mode, ts);
      case Turn(retry, ts) =>
        var i := FirstAskable(c, idle, retry, ts);
        if i < |c| {
          ReplaceKeeps(c, target, i, c[i].1.(lastSend := ts));
        }
    }
  }

  lemma DoKeepsSettled(c: Ranked, target: NodeId, idle: bool, s: Step)
    requires RankedOk(c, target) && |c| <= 15 && Settled(c, target)
    requires s.ts != 0 && c[0].1.lastSend <= s.ts && SparesFirst(c, idle, s)
    ensures var c' := Do(c, target, idle, s); Settled(c', target) && c'[0].1.lastSend == c[0].1.lastSend
  {
    hide AddClosest, RankedOk;
    if s.Message? {
      MessageKeepsSettled(c, target, s.id, s.mode, s.ts);
    }
  }

  /** While it is not asked again, the target keeps its place, and the query ends in success whenever it ends. */
  lemma {:induction false} SettledSucceeds(c: Ranked, target: NodeId, idle: bool, steps: seq<Step>, left: Ranked)
    requires RankedOk(c, target) && |c| <= 15 && Settled(c, target)
    requires NotBefore(steps, c[0].1.lastSend) && NotBefore(steps, 1) && SparesAlways(c, target, idle, steps)
    ensures var e := Play(c, target, idle, steps);
            && RankedOk(e, target) && |e| <= 15 && Settled(e, target) && e[0].1.lastSend == c[0].1.lastSend
            && Succeeds(e, target, left)
  {
    hide Do, RankedOk, SparesFirst;
    if steps != [] {
      var last := |steps| - 1;
      SettledSucceeds(c, target, idle, steps[..last], left);
      var e := Play(c, target, idle, steps[..last]);
      DoKeeps(e, target, idle, steps[last]);
      DoKeepsSettled(e, target, idle, steps[last]);
    }
  }

  /** A query that does not go on when idle asks nobody twice, so one answer of the target decides it. */
  lemma {:induction false} NotAskedTwice(c: Ranked, target: NodeId, steps: seq<Step>)
    requires RankedOk(c, target) && |c| <= 15 && Settled(c, target) && c[0].1.lastSend != 0
    requires NotBefore(steps, c[0].1.lastSend) && NotBefore(steps, 1)
    ensures SparesAlways(c, target, false, steps)
  {
    hide Do, RankedOk;
    if steps != [] {
      var last := |steps| - 1;
      NotAskedTwice(c, target, steps[..last]);
      SettledSucceeds(c, target, false, steps[..last], []);
    }
  }

  /**
   * Once the target has answered, known by one address only, and is not asked
   * again, the query has succeeded when it ends; a query that does not go on
   * when idle does not ask it again if it had asked it before.
   */
  lemma AnsweredTargetSucceeds(c: Ranked, target: NodeId, id: BdId, mode: bv32, ts: int, idle: bool,
                               steps: seq<Step>, left: Ranked)
    requires RankedOk(c, target) && |c| <= 15 && id.id == target && OnlyAddress(c, target, id)
    requires mode & 4 != 0 && 0 < ts && (c != [] ==> c[0].1.lastSend <= ts) && NotBefore(steps, ts)
    ensures var c' := AddClosest(c, target, id, mode, ts).0;
            && c' != [] && (HasPeer(c, id) ==> c != [])
            && (SparesAlways(c', target, idle, steps) || (!idle && HasPeer(c, id) && c[0].1.lastSend != 0) ==>
                  Succeeds(Play(c', target, idle, steps), target, left))
  {
    hide AddClosest, RankedOk, Play, Succeeds, OnlyAddress;
    AnswerSettles(c, target, id, mode, ts);
    AddClosestKeeps(c, target, id, mode, ts);
    var c' := AddClosest(c, target, id, mode, ts).0;
    if SparesAlways(c', target, idle, steps) {
      SettledSucceeds(c', target, idle, steps, left);
    } else if !idle && HasPeer(c, id) && c[0].1.lastSend != 0 {
      NotAskedTwice(c', target, steps);
      SettledSucceeds(c', target, idle, steps, left);
    }
  }

  // ------------------------------------------------- three ways to miss a target

  lemma AddToEmpty(target: NodeId, id: BdId, ts: int)
    ensures AddClosest([], target, id, 4, ts).0 == [(Dist(target, id.id), Peer(id, 4, 0, ts, ts, 0))]
  {
  }

  lemma AddToSilent(target: NodeId, p: Peer, id: BdId, ts: int)
    requires p.id.id == target && id.id != target && Silent(p, ts)
    ensures AddClosest([(Dist(target, target), p)], target, id, 4, ts).0
            == [(Dist(target, id.id), Peer(id, 4, 0, ts, ts, 0))]
  {
    hide Dist, Less;
    NothingCloser(target, id.id);
    var c: Ranked := [(Dist(target, target), p)];
    var d := Dist(target, id.id);
    LessIsStrictTotal(d, Dist(target, target), d);
    assert c[..1] == c && c[1..] == [] && c[..0] == [];
    assert UpperBound(c[1..], d) == 0 && LowerBound(c[1..], d) == 0;
    assert Answering(c, ts) == [];
  }

  lemma OnlyOneAskable(target: NodeId, p: Peer, retry: int, ts: int)
    requires p.lastSend == 0
    ensures Do([(Dist(target, target), p)], target, false, Turn(retry, ts))
            == [(Dist(target, target), p.(lastSend := ts))]
  {
  }

  /** A target that sent its answer before it was asked is asked again, and may then be displaced. */
  lemma AskedAgainIsLost(target: NodeId, id: BdId, other: BdId)
    requires id.id == target && other.id != target
    ensures var e := Play([], target, false, [Message(id, 4, 100), Turn(600, 101), Message(other, 4, 112)]);
            |e| == 1 && e[0].1.id == other && !Found(target, e)
  {
    hide AddClosest, Dist;
    var a, b, c := Message(id, 4, 100), Turn(600, 101), Message(other, 4, 112);
    AddToEmpty(target, id, 100);
    PlayThree(target, a, b, c);
    OnlyOneAskable(target, Peer(id, 4, 0, 100, 100, 0), 600, 101);
    AddToSilent(target, Peer(id, 4, 101, 100, 100, 0), other, 112);
  }

  lemma PlayOne(c: Ranked, target: NodeId, idle: bool, steps: seq<Step>, s: Step)
    ensures Play(c, target, idle, steps + [s]) == Do(Play(c, target, idle, steps), target, idle, s)
  {
    assert (steps + [s])[..|steps|] == steps;
  }

  lemma PlayThree(target: NodeId, a: Step, b: Step, c: Step)
    ensures Play([], target, false, [a, b, c])
            == Do(Do(Do([], target, false, a), target, false, b), target, false, c)
  {
    hide Do;
    PlayOne([], target, false, [], a);
    PlayOne([], target, false, [a], b);
    PlayOne([], target, false, [a, b], c);
    assert [] + [a] == [a] && [a] + [b] == [a, b] && [a, b] + [c] == [a, b, c];
  }

  /** An older entry with the id of the target at another address hides the answer of the target. */
  lemma OtherAddressHides(target: NodeId, elder: BdId, id: BdId)
    requires elder.id == target && id.id == target && !Similar(id, elder)
    ensures var c := [(Dist(target, target), Peer(elder, 0, 95, 0, 90, 0))];
            var e := AddClosest(c, target, id, 4, 101).0;
            HasPeer(e, id) && !Found(target, e)
  {
    hide AddClosest, Dist, Less;
    var c: Ranked := [(Dist(target, target), Peer(elder, 0, 95, 0, 90, 0))];
    RefusedExactly(c, target, id, 4, 101);
    AddedIsThere(c, target, id, 4, 101);
    FirstIsFirst(c, target, id, 4, 101);
  }

  /** One of fifteen addresses of a peer, asked at 100; the first fourteen have answered. */
  function OneOfMany(peer: NodeId, i: nat): Peer
    requires i < 15
  {
    Peer(BdId(peer, Addr(Ip(i as bv8, 0, 0, 0), Port(0, 0))), 4, 100, if i < 14 then 100 else 0, 90, 0)
  }

  lemma Distinct(peer: NodeId, i: nat, j: nat)
    requires i < j < 15
    ensures !Similar(OneOfMany(peer, i).id, OneOfMany(peer, j).id)
  {
    assert (i as bv8) as int != (j as bv8) as int;
  }

  /** The answer of the last of fifteen listed peers is lost if the others have answered. */
  lemma AnswerIsLost(target: NodeId, peer: NodeId)
    ensures var c := seq(15, i requires 0 <= i < 15 => (Dist(target, peer), OneOfMany(peer, i)));
            && RankedOk(c, target) && c[14].1.lastSend == 100 && c[14].1.lastRecv == 0
            && AddClosest(c, target, c[14].1.id, 4, 101) == (c, false)
  {
    var c := seq(15, i requires 0 <= i < 15 => (Dist(target, peer), OneOfMany(peer, i)));
    hide OneOfMany, AddClosest, Less;
    LessIsStrictTotal(Dist(target, peer), Dist(target, peer), Dist(target, peer));
    forall i, j | 0 <= i < j < 15
      ensures !Similar(c[i].1.id, c[j].1.id)
    {
      Distinct(peer, i, j);
    }
    Fields(peer);
    assert RankedOk(c, target);
    assert Closed(c, c[14].0, 101);
    AnswerIsRecorded(c, target, c[14].1.id, 4, 101, 14);
  }

  lemma Fields(peer: NodeId)
    ensures forall i: nat :: i < 15 ==>
              var p := OneOfMany(peer, i);
              p.id.id == peer && p.lastSend == 100 && p.lastRecv == if i < 14 then 100 else 0
  {
  }
}
