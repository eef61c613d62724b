/** One query as the program updates it in place, proved against QuerySpec. */
module IterativeQuery {
  import opened Collections
  import opened Ids
  import opened Ordered
  import opened RoutingSpec
  import opened QuerySpec
  import opened QueryInvariant

  datatype State = Querying | Failure | FoundClosest | PeerUnreachable | Success

  const QFLAG_DISGUISE: bv32 := 1
  const QFLAG_DO_IDLE: bv32 := 2
  const QUERY_IDLE_RETRY_PEER_PERIOD := 600
  const MAX_QUERY_IDLE_PERIOD := 1200
  const MIN_QUERY_AGE := 10
  const MAX_QUERY_AGE := 300
  const POT_PEER_CLEAN_PERIOD := 60

  // ------------------------------------------------------- specification parts

  function Started(target: NodeId, start: seq<BdId>, now: int): Ranked {
    if start == [] then []
    else
      var id := start[|start| - 1];
      Insert(Started(target, start[..|start| - 1], now), Dist(target, id.id), Peer(id, 0, 0, 0, now, 0))
  }

  ghost predicate Dissimilar(ids: seq<BdId>) {
    forall i, j :: 0 <= i < j < |ids| ==> !Similar(ids[i], ids[j])
  }

  function Unanswereds(s: Ranked, ts: int): nat {
    if s == [] then 0 else Unanswereds(s[..|s| - 1], ts) + if Unanswered(s[|s| - 1].1, ts) then 1 else 0
  }

  /** The list after its first `n` unanswered entries were erased. */
  function DropUnanswered(s: Ranked, ts: int, n: nat): Ranked {
    if s == [] || n == 0 then s
    else if Unanswered(s[0].1, ts) then DropUnanswered(s[1..], ts, n - 1)
    else [s[0]] + DropUnanswered(s[1..], ts, n)
  }

  lemma Snoc(s: Ranked, e: (Metric, Peer), ts: int)
    ensures Answering(s + [e], ts) == Answering(s, ts) + if Unanswered(e.1, ts) then [] else [e]
    ensures Unanswereds(s + [e], ts) == Unanswereds(s, ts) + if Unanswered(e.1, ts) then 1 else 0
  {
    assert (s + [e])[..|s|] == s;
  }

  lemma SplitLast<T>(a: seq<T>, b: seq<T>)
    requires b != []
    ensures var n := |b| - 1; a + b == a + b[..n] + [b[n]] && b == b[..n] + [b[n]]
  {
  }

  lemma {:induction false} Concat(a: Ranked, b: Ranked, ts: int)
    ensures Answering(a + b, ts) == Answering(a, ts) + Answering(b, ts)
    ensures Unanswereds(a + b, ts) == Unanswereds(a, ts) + Unanswereds(b, ts)
  {
    if b == [] {
      assert a + b == a;
    } else {
      hide Answering, Unanswereds, Unanswered;
      var n := |b| - 1;
      Concat(a, b[..n], ts);
      Snoc(a + b[..n], b[n], ts);
      Snoc(b[..n], b[n], ts);
      SplitLast(a, b);
    }
  }

  lemma HeadFirst(s: Ranked, u: nat, ts: int)
    requires 0 < u <= |s|
    ensures var rest := s[1..][..u - 1];
            && s[1..][u - 1..] == s[u..]
            && Answering(s[..u], ts) == (if Unanswered(s[0].1, ts) then [] else [s[0]]) + Answering(rest, ts)
            && Unanswereds(s[..u], ts) == (if Unanswered(s[0].1, ts) then 1 else 0) + Unanswereds(rest, ts)
  {
    var rest := s[1..][..u - 1];
    assert s[..u] == [s[0]] + rest;
    Concat([s[0]], rest, ts);
    assert [s[0]][..0] == s[..0];
  }

  /** Erasing as many as a front part has leaves the answering entries of that part. */
  lemma {:induction false} DropIsAnswering(s: Ranked, u: nat, ts: int)
    requires u <= |s|
    ensures DropUnanswered(s, ts, Unanswereds(s[..u], ts)) == Answering(s[..u], ts) + s[u..]
    decreases u
  {
    hide Unanswered;
    if u > 0 {
      HeadFirst(s, u, ts);
      DropIsAnswering(s[1..], u - 1, ts);
      if !Unanswered(s[0].1, ts) {
        DropHead(s, ts, Unanswereds(s[..u], ts));
      }
    }
  }

  lemma DropHead(s: Ranked, ts: int, n: nat)
    requires s != [] && !Unanswered(s[0].1, ts)
    ensures DropUnanswered(s, ts, n) == [s[0]] + DropUnanswered(s[1..], ts, n)
  {
    assert s == [s[0]] + s[1..];
    assert n == 0 ==> DropUnanswered(s[1..], ts, n) == s[1..];
  }

  lemma {:induction false} DropStep(s: Ranked, ts: int, n: nat, k: nat)
    requires k < |s| && Unanswered(s[k].1, ts) && forall j :: 0 <= j < k ==> !Unanswered(s[j].1, ts)
    ensures DropUnanswered(s, ts, n + 1) == DropUnanswered(s[..k] + s[k + 1..], ts, n)
  {
    var t := s[..k] + s[k + 1..];
    if k == 0 {
      assert t == s[1..];
    } else {
      DropStep(s[1..], ts, n, k - 1);
      assert t[1..] == s[1..][..k - 1] + s[1..][k..] && t[0] == s[0];
    }
  }

  lemma {:induction false} DropNone(s: Ranked, ts: int, n: nat)
    requires forall j :: 0 <= j < |s| ==> !Unanswered(s[j].1, ts)
    ensures DropUnanswered(s, ts, n) == s
  {
    if s != [] {
      DropNone(s[1..], ts, n);
    }
  }

  // ---------------------------------------------------------- the closest list

  /** Counts the answering and the unanswered entries that are not farther. */
  method CountCloser(c: Ranked, u: nat, ts: int) returns (i: nat, toDrop: nat)
    requires u <= |c|
    ensures i == |Answering(c[..u], ts)| && toDrop == Unanswereds(c[..u], ts)
  {
    i, toDrop := 0, 0;
    for k := 0 to u
      invariant i == |Answering(c[..k], ts)| && toDrop == Unanswereds(c[..k], ts)
    {
      assert c[..k + 1][..k] == c[..k];
      var peer := c[k].1;
      var sendts := ts - peer.lastSend;
      var hasSent := peer.lastSend != 0;
      var hasReply := peer.lastRecv >= peer.lastSend;
      if hasSent && !hasReply && sendts > EXPECTED_REPLY {
        toDrop := toDrop + 1;
      } else {
        i := i + 1;
      }
    }
  }

  /** Erases the first unanswered entry, `toDrop` times. */
  method EraseUnanswered(c: Ranked, ts: int, toDrop: nat) returns (r: Ranked)
    ensures r == DropUnanswered(c, ts, toDrop)
  {
    r := c;
    var j := 0;
    while j < toDrop
      invariant 0 <= j <= toDrop
      invariant DropUnanswered(r, ts, toDrop - j) == DropUnanswered(c, ts, toDrop)
    {
      var k := 0;
      while k < |r| && !Unanswered(r[k].1, ts)
        invariant 0 <= k <= |r|
        invariant forall i :: 0 <= i < k ==> !Unanswered(r[i].1, ts)
      {
        k := k + 1;
      }
      if k < |r| {
        DropStep(r, ts, toDrop - j - 1, k);
        r := r[..k] + r[k + 1..];
      } else {
        DropNone(r, ts, toDrop - j);
        DropNone(r, ts, toDrop - j - 1);
      }
      j := j + 1;
    }
  }

  method TrimBack(c: Ranked, size: nat) returns (r: Ranked)
    ensures r == Front(c, size)
  {
    r := c;
    while |r| > size
      invariant r == c[..|r|] && |r| <= |c| && (|r| < |c| ==> |r| >= size)
    {
      r := r[..|r| - 1];
    }
  }

  method SearchSimilar(c: Ranked, l: nat, u: nat, id: BdId) returns (k: nat)
    requires u <= |c|
    ensures k == FindIn(c, l, u, id)
  {
    k := l;
    while k < u && !Similar(id, c[k].1.id)
      invariant l <= k && FindIn(c, k, u, id) == FindIn(c, l, u, id)
    {
      k := k + 1;
    }
  }

  // ------------------------------------------------------- choosing and ending

  /** Never asked, or asked long ago by a query that goes on when it is done. */
  predicate Askable(p: Peer, idle: bool, retry: int, now: int) {
    p.lastSend == 0 || (idle && now - p.lastSend > retry)
  }

  /** The first peer to be asked; the length of the list if there is none. */
  function FirstAskable(c: Ranked, idle: bool, retry: int, now: int): (i: nat)
    ensures i <= |c| && (i < |c| ==> Askable(c[i].1, idle, retry, now))
    ensures forall j :: 0 <= j < i ==> !Askable(c[j].1, idle, retry, now)
  {
    if c == [] || Askable(c[0].1, idle, retry, now) then 0 else 1 + FirstAskable(c[1..], idle, retry, now)
  }

  function Retry(idleRetry: int, queryTS: int, now: int): int {
    var half := (now - queryTS) / 2;
    if half <= idleRetry then idleRetry else if half > MAX_QUERY_IDLE_PERIOD then MAX_QUERY_IDLE_PERIOD else half
  }

  /** It has not answered, or has done so only just now. */
  predicate Pending(p: Peer, now: int) {
    p.lastRecv == 0 || now - p.lastRecv < EXPECTED_REPLY
  }

  predicate Unfinished(c: Ranked, now: int) {
    exists i :: 0 <= i < |c| && i < NUM_QUERY_NODES && Pending(c[i].1, now)
  }

  predicate Ends(c: Ranked, age: int, now: int) {
    age > MAX_QUERY_AGE || (age >= MIN_QUERY_AGE && |c| >= NUM_QUERY_NODES && !Unfinished(c, now))
  }

  /** The peers heard of within `timeout`. */
  function Fresh(p: Ranked, timeout: int, now: int): Ranked {
    if p == [] then []
    else Fresh(p[..|p| - 1], timeout, now) + if now - p[|p| - 1].1.lastRecv > timeout then [] else [p[|p| - 1]]
  }

  function LeftPotential(p: Ranked, idle: bool, cleanTS: int, retry: int, now: int): Ranked {
    if idle && now - cleanTS >= POT_PEER_CLEAN_PERIOD then Fresh(p, retry + EXPECTED_REPLY, now) else p
  }

  /** When the potential peers were cleaned last. */
  function CleanTime(idle: bool, cleanTS: int, now: int): int {
    if idle && now - cleanTS >= POT_PEER_CLEAN_PERIOD then now else cleanTS
  }

  /** The closest peer is the target, and it has answered. */
  predicate Found(target: NodeId, c: Ranked) {
    c != [] && c[0].1.id.id == target && c[0].1.lastRecv != 0
  }

  function Outcome(target: NodeId, c: Ranked, left: Ranked): State
    requires c == [] || Found(target, c) || left != []
  {
    if c == [] then Failure
    else if Found(target, c) then Success
    else if left[0].1.id.id == target then PeerUnreachable
    else FoundClosest
  }

  lemma {:induction false} FreshKeeps(p: Ranked, target: NodeId, timeout: int, now: int)
    requires RankedOk(p, target)
    ensures RankedOk(Fresh(p, timeout, now), target) && Within(Fresh(p, timeout, now), p)
  {
    if p != [] {
      var n := |p| - 1;
      TakeKeeps(p, target, n);
      FreshKeeps(p[..n], target, timeout, now);
      var t := Fresh(p[..n], timeout, now);
      forall i | 0 <= i < |t|
        ensures !Less(p[n].0, t[i].0) && !Similar(t[i].1.id, p[n].1.id) && t[i] in p
      {
        assert t[i] in p[..n];
        var j :| 0 <= j < n && p[..n][j] == t[i];
        assert p[j] == t[i];
      }
      SnocKeeps(t, p[n], target);
    }
  }

  lemma SnocKeeps(t: Ranked, e: (Metric, Peer), target: NodeId)
    requires RankedOk(t, target) && e.0 == Dist(target, e.1.id.id)
    requires forall i :: 0 <= i < |t| ==> !Less(e.0, t[i].0) && !Similar(t[i].1.id, e.1.id)
    ensures RankedOk(t + [e], target)
  {
  }

  lemma {:induction false} FirstAskableFrom(c: Ranked, idle: bool, retry: int, now: int, i: nat)
    requires i <= |c| && forall j :: 0 <= j < i ==> !Askable(c[j].1, idle, retry, now)
    ensures i == |c| || Askable(c[i].1, idle, retry, now) ==> FirstAskable(c, idle, retry, now) == i
  {
  }

  class Query {
    const target: NodeId
    const flags: bv32
    const queryTS: int
    var closest: Ranked
    var potential: Ranked
    var unknown: seq<Peer>
    var flagged: seq<Peer>
    var state: State
    var searchTime: int
    var idleRetry: int
    var cleanTS: int

    /** The invariant of a query. */
    ghost predicate Valid()
      reads this
    {
      RankedOk(closest, target) && |closest| <= CLOSEST_LIST_SIZE && RankedOk(potential, target)
    }

    function ProxyState(): Proxies
      reads this`unknown, this`flagged
    {
      Proxies(unknown, flagged)
    }

    constructor (target: NodeId, startList: seq<BdId>, flags: bv32, now: int)
      ensures this.target == target && this.flags == flags && queryTS == now && state == Querying
      ensures closest == Started(target, startList, now) && potential == [] && ProxyState() == Proxies([], [])
      ensures searchTime == 0 && idleRetry == QUERY_IDLE_RETRY_PEER_PERIOD && cleanTS == now
      ensures |startList| <= CLOSEST_LIST_SIZE && Dissimilar(startList) ==> Valid()
    {
      this.target, this.flags, queryTS := target, flags, now;
      potential, unknown, flagged := [], [], [];
      state, searchTime, idleRetry, cleanTS := Querying, 0, QUERY_IDLE_RETRY_PEER_PERIOD, now;
      var list: Ranked := [];
      for i := 0 to |startList|
        invariant list == Started(target, startList[..i], now)
      {
        assert startList[..i + 1][..i] == startList[..i];
        list := Insert(list, Dist(target, startList[i].id), Peer(startList[i], 0, 0, 0, now, 0));
      }
      assert startList[..|startList|] == startList;
      closest := list;
      new;
      if Dissimilar(startList) {
        StartedOk(target, startList, now);
      }
    }

    static lemma {:induction false} StartedOk(target: NodeId, start: seq<BdId>, now: int)
      requires Dissimilar(start)
      ensures var c := Started(target, start, now);
              RankedOk(c, target) && |c| == |start| && forall e :: e in c ==> e.1.id in start
    {
      if start != [] {
        var n := |start| - 1;
        StartedOk(target, start[..n], now);
        var c, p := Started(target, start[..n], now), Peer(start[n], 0, 0, 0, now, 0);
        forall i | 0 <= i < |c|
          ensures !Similar(p.id, c[i].1.id)
        {
          assert c[i] in c;
          var j :| 0 <= j < n && start[..n][j] == c[i].1.id;
          assert start[j] == c[i].1.id;
        }
        hide RankedOk, Similar, Dist, Insert;
        InsertKeeps(c, target, p);
        InsertAdds(c, Dist(target, start[n].id), p);
        forall e | e in Started(target, start, now)
          ensures e.1.id in start
        {
          InsertFrom(c, Dist(target, start[n].id), p, e);
        }
      }
    }

    static lemma InsertFrom(c: Ranked, key: Metric, p: Peer, e: (Metric, Peer))
      requires e in Insert(c, key, p)
      ensures e in c || e == (key, p)
    {
      InsertAdds(c, key, p);
      assert e in multiset(Insert(c, key, p));
    }

    /** Adds a peer that has answered, or updates it; refuses it if the list is full of closer ones. */
    method AddClosestPeer(id: BdId, mode: bv32, ts: int) returns (added: bool)
      modifies this`closest
      ensures (closest, added) == AddClosest(old(closest), target, id, mode, ts)
      ensures old(Valid()) ==> Valid()
      ensures closest != []
    {
      var dist := Dist(target, id.id);
      var l, u := LowerBound(closest, dist), UpperBound(closest, dist);
      if RankedOk(closest, target) && |closest| <= CLOSEST_LIST_SIZE {
        AddClosestKeeps(closest, target, id, mode, ts);
      }
      var i, toDrop := CountCloser(closest, u, ts);
      if i > CLOSEST_LIST_SIZE - 1 {
        return false;
      }
      var k := SearchSimilar(closest, l, u, id);
      if k < u {
        UpdateClosest(k, id, mode, ts);
        return true;
      }
      DropIsAnswering(closest, u, ts);
      closest := EraseUnanswered(closest, ts, toDrop);
      closest := TrimBack(closest, CLOSEST_LIST_SIZE - 1);
      var peer := Peer(id, mode, 0, 0, ts, 0);
      if HasAny(mode, RECV_NODES) {
        peer := peer.(lastRecv := ts);
      }
      closest := Insert(closest, dist, peer);
      added := true;
    }

    method UpdateClosest(k: nat, id: BdId, mode: bv32, ts: int)
      requires k < |closest|
      modifies this`closest
      ensures closest == old(closest)[k := (old(closest)[k].0, TouchClosest(old(closest)[k].1, id, mode, ts))]
    {
      var peer := closest[k].1;
      if mode != 0 {
        peer := TakePort(peer, id);
      }
      if HasAny(mode, RECV_NODES) {
        peer := peer.(lastRecv := ts, flags := Join(peer.flags, mode));
      }
      closest := closest[k := (closest[k].0, peer)];
    }

    // ---------------------------------------------------------- the next request

    /**
     * Asks the closest peer that is to be asked.  A disguised query asks for an
     * id that is strictly closer to the target than that peer is.
     */
    method NextQuery(rnd: NodeId, now: int) returns (found: bool, id: BdId, asked: NodeId)
      requires var idle, retry := HasAny(flags, QFLAG_DO_IDLE), Retry(idleRetry, queryTS, now);
               // where the query ends without having found its target, a potential peer is looked at
               (state == Querying || idle) && FirstAskable(closest, idle, retry, now) == |closest|
               && Ends(closest, now - queryTS, now) && closest != [] && !Found(target, closest) ==>
                 LeftPotential(potential, idle, cleanTS, retry, now) != []
      modifies this`closest, this`potential, this`state, this`searchTime, this`idleRetry, this`cleanTS
      ensures var idle, retry := HasAny(flags, QFLAG_DO_IDLE), Retry(old(idleRetry), queryTS, now);
              var was := old(closest);
              var i := FirstAskable(was, idle, retry, now);
              if old(state) != Querying && !idle then
                && !found && closest == was && potential == old(potential) && state == old(state)
                && idleRetry == old(idleRetry) && cleanTS == old(cleanTS) && searchTime == old(searchTime)
              else if i < |was| then
                && idleRetry == retry && cleanTS == old(cleanTS) && searchTime == old(searchTime)
                && found && id == was[i].1.id && closest == was[i := (was[i].0, was[i].1.(lastSend := now))]
                && (if HasAny(flags, QFLAG_DISGUISE) && id.id != target
                    then Less(Dist(asked, target), Dist(id.id, target)) else asked == target)
                && potential == old(potential) && state == old(state)
              else if Ends(was, now - queryTS, now) then
                && idleRetry == retry && cleanTS == CleanTime(idle, old(cleanTS), now)
                && searchTime == (if old(state) == Querying then now - queryTS else old(searchTime))
                && !found && closest == was
                && potential == LeftPotential(old(potential), idle, old(cleanTS), retry, now)
                && state == Outcome(target, was, potential)
              else
                && idleRetry == retry && cleanTS == old(cleanTS) && searchTime == old(searchTime)
                && !found && closest == was && potential == old(potential) && state == old(state)
      ensures old(Valid()) ==> Valid()
    {
      found, id, asked := false, BdId(target, NO_ADDR), target;
      var idle := HasAny(flags, QFLAG_DO_IDLE);
      if state != Querying && !idle {
        return;
      }
      UpdateRetry(now);
      var i, notFinished := Scan(closest, idle, idleRetry, now);
      if i < |closest| {
        id, asked := Ask(i, rnd, now);
        found := true;
      } else {
        Finish(notFinished, now);
      }
      ListsKept(old(closest), i, old(potential), target, idleRetry + EXPECTED_REPLY, now);
    }

    static lemma ListsKept(c: Ranked, i: nat, p: Ranked, target: NodeId, timeout: int, now: int)
      ensures RankedOk(c, target) && i < |c| ==> RankedOk(c[i := (c[i].0, c[i].1.(lastSend := now))], target)
      ensures RankedOk(p, target) ==> RankedOk(Fresh(p, timeout, now), target)
    {
      if RankedOk(c, target) && i < |c| {
        ReplaceKeeps(c, target, i, c[i].1.(lastSend := now));
      }
      if RankedOk(p, target) {
        FreshKeeps(p, target, timeout, now);
      }
    }

    method Ask(i: nat, rnd: NodeId, now: int) returns (id: BdId, asked: NodeId)
      requires i < |closest|
      modifies this`closest
      ensures var was := old(closest);
              id == was[i].1.id && closest == was[i := (was[i].0, was[i].1.(lastSend := now))]
      ensures if HasAny(flags, QFLAG_DISGUISE) && id.id != target
              then Less(Dist(asked, target), Dist(id.id, target)) else asked == target
    {
      id, asked := closest[i].1.id, target;
      closest := closest[i := (closest[i].0, closest[i].1.(lastSend := now))];
      if HasAny(flags, QFLAG_DISGUISE) {
        asked := RandomMidId(target, id.id, rnd);
      }
    }

    method UpdateRetry(now: int)
      modifies this`idleRetry
      ensures idleRetry == Retry(old(idleRetry), queryTS, now)
    {
      if (now - queryTS) / 2 > idleRetry {
        idleRetry := (now - queryTS) / 2;
        if idleRetry > MAX_QUERY_IDLE_PERIOD {
          idleRetry := MAX_QUERY_IDLE_PERIOD;
        }
      }
    }

    /** The loop over the closest peers. */
    static method Scan(c: Ranked, idle: bool, retry: int, now: int) returns (i: nat, notFinished: bool)
      ensures i == FirstAskable(c, idle, retry, now)
      ensures i == |c| ==> notFinished == Unfinished(c, now)
    {
      i, notFinished := 0, false;
      while i < |c|
        invariant i <= |c|
        invariant forall j :: 0 <= j < i ==> !Askable(c[j].1, idle, retry, now)
        invariant notFinished == exists j :: 0 <= j < i && j < NUM_QUERY_NODES && Pending(c[j].1, now)
      {
        var peer := c[i].1;
        var queryPeer := false;
        if peer.lastSend == 0 {
          queryPeer := true;
        }
        if !queryPeer && idle && now - peer.lastSend > retry {
          queryPeer := true;
        }
        if (peer.lastRecv == 0 || now - peer.lastRecv < EXPECTED_REPLY) && i < NUM_QUERY_NODES {
          notFinished := true;
          assert Pending(c[i].1, now);
        }
        if queryPeer {
          break;
        }
        i := i + 1;
      }
      FirstAskableFrom(c, idle, retry, now, i);
    }

    /** Nobody is left to be asked: the query ends unless it is too young or waits for answers. */
    method Finish(notFinished: bool, now: int)
      requires notFinished == Unfinished(closest, now)
      requires Ends(closest, now - queryTS, now) && closest != [] && !Found(target, closest) ==>
                 LeftPotential(potential, HasAny(flags, QFLAG_DO_IDLE), cleanTS, idleRetry, now) != []
      modifies this`potential, this`state, this`searchTime, this`cleanTS
      ensures if Ends(closest, now - queryTS, now)
              then && potential
                      == LeftPotential(old(potential), HasAny(flags, QFLAG_DO_IDLE), old(cleanTS), idleRetry, now)
                   && state == Outcome(target, closest, potential)
                   && cleanTS == CleanTime(HasAny(flags, QFLAG_DO_IDLE), old(cleanTS), now)
                   && searchTime == (if old(state) == Querying then now - queryTS else old(searchTime))
              else potential == old(potential) && state == old(state)
                   && cleanTS == old(cleanTS) && searchTime == old(searchTime)
    {
      var age := now - queryTS;
      if age < MIN_QUERY_AGE {
        return;
      }
      if age <= MAX_QUERY_AGE && (|closest| < NUM_QUERY_NODES || notFinished) {
        return;
      }
      if state == Querying {
        searchTime := now - queryTS;
      }
      RemoveOldPotentialPeers(now);
      if |closest| > 0 {
        if closest[0].1.id.id == target && closest[0].1.lastRecv != 0 {
          state := Success;
        } else if potential[0].1.id.id == target {
          state := PeerUnreachable;
        } else {
          state := FoundClosest;
        }
      } else {
        state := Failure;
      }
    }

    // ----------------------------------------------------------- potential peers

    method RemoveOldPotentialPeers(now: int)
      modifies this`potential, this`cleanTS
      ensures cleanTS == CleanTime(HasAny(flags, QFLAG_DO_IDLE), old(cleanTS), now)
      ensures potential == LeftPotential(old(potential), HasAny(flags, QFLAG_DO_IDLE), old(cleanTS), idleRetry, now)
    {
      if !HasAny(flags, QFLAG_DO_IDLE) {
        return;
      }
      if now - cleanTS < POT_PEER_CLEAN_PERIOD {
        return;
      }
      cleanTS := now;
      var left: Ranked := [];
      for i := 0 to |potential|
        invariant potential == old(potential) && left == Fresh(potential[..i], idleRetry + EXPECTED_REPLY, now)
      {
        assert potential[..i + 1][..i] == potential[..i];
        if now - potential[i].1.lastRecv <= idleRetry + EXPECTED_REPLY {
          left := left + [potential[i]];
        }
      }
      assert potential[..|potential|] == potential;
      potential := left;
    }

    method UpdatePotentialPeer(id: BdId, mode: bv32, how: AddType, now: int) returns (ping: bool)
      requires closest != [] || |potential| < NUM_QUERY_NODES || IsKnown(potential, target, id)
      modifies this`potential
      ensures (potential, ping) == UpdatePotential(old(potential), closest, target, id, mode, how, now)
      ensures old(Valid()) ==> Valid()
    {
      var dist := Dist(target, id.id);
      if RankedOk(potential, target) {
        UpdatePotentialKeeps(potential, closest, target, id, mode, how, now);
      }
      var l, u := LowerBound(potential, dist), UpperBound(potential, dist);
      var k := SearchSimilar(potential, l, u, id);
      if k < u {
        ping := TouchPotentialAt(k, id, mode, how, now);
        return;
      }
      var peer := Peer(id, mode, 0, now, now, 0);
      if how.FindNodeResponse? {
        peer := peer.(lastSend := now);
      }
      InsertAdds(potential, dist, peer);
      potential := Insert(potential, dist, peer);
      TrimPotentialPeersToClosest();
      ping := true;
    }

    /** Takes over the port; a peer whose port changes is unstable. */
    static method TakePort(peer0: Peer, id: BdId) returns (peer: Peer)
      ensures forall mode: bv32 :: mode != 0 ==> peer == UpdatePort(peer0, id, mode)
    {
      var (newId, moved) := UpdateSimilar(peer0.id, id);
      peer := peer0.(id := newId);
      if moved {
        peer := peer.(extra := Join(peer.extra, EX_UNSTABLE));
      }
    }

    method TouchPotentialAt(k: nat, id: BdId, mode: bv32, how: AddType, now: int) returns (ping: bool)
      requires k < |potential|
      modifies this`potential
      ensures var (q, p) := TouchPotential(old(potential)[k].1, id, mode, how, now);
              potential == old(potential)[k := (old(potential)[k].0, q)] && ping == p
    {
      hide Join, UpdateSimilar;
      ping := false;
      var peer := potential[k].1;
      peer := peer.(flags := Join(peer.flags, mode), lastRecv := now);
      if how.FindNodeResponse? {
        if now - peer.lastSend > MIN_PING_POTENTIAL_PERIOD {
          peer := peer.(lastSend := now);
          ping := true;
        }
      } else if mode != 0 {
        peer := TakePort(peer, id);
      }
      potential := potential[k := (potential[k].0, peer)];
    }

    method TrimPotentialPeersToClosest()
      requires closest != [] || |potential| <= NUM_QUERY_NODES
      modifies this`potential
      ensures potential == if |old(potential)| <= NUM_QUERY_NODES then old(potential)
                           else TrimToClosest(old(potential), closest[|closest| - 1].0)
    {
      if |potential| <= NUM_QUERY_NODES {
        return;
      }
      var lastClosest := closest[|closest| - 1].0;
      while |potential| > NUM_QUERY_NODES && Less(lastClosest, potential[|potential| - 1].0)
        invariant TrimToClosest(potential, lastClosest) == TrimToClosest(old(potential), lastClosest)
        decreases |potential|
      {
        potential := potential[..|potential| - 1];
      }
    }

    // ------------------------------------------------------------------- proxies

    /** Moves a known proxy to the front of the list its flags call for; `inFlagged` tells which list is searched. */
    method UpdateProxyList(id: BdId, mode: bv32, inFlagged: bool, now: int) returns (found: bool)
      modifies this`unknown, this`flagged
      ensures (ProxyState(), found) == QuerySpec.UpdateProxyList(old(ProxyState()), inFlagged, id, mode, now)
    {
      var list := if inFlagged then flagged else unknown;
      var i := 0;
      while i < |list| && !Similar(id, list[i].id)
        invariant 0 <= i <= |list| && forall j :: 0 <= j < i ==> !Similar(id, list[j].id)
      {
        i := i + 1;
      }
      FoundAt(list, id, i);
      if i == |list| {
        return false;
      }
      var peer := list[i];
      if mode != 0 {
        peer := TakePort(peer, id);
      }
      peer := peer.(flags := Join(peer.flags, mode), lastRecv := now);
      if inFlagged {
        flagged := RemoveAt(flagged, i);
      } else {
        unknown := RemoveAt(unknown, i);
      }
      AddToFront(peer);
      found := true;
    }

    static lemma {:induction false} FoundAt(list: seq<Peer>, id: BdId, i: nat)
      requires i <= |list| && forall j :: 0 <= j < i ==> !Similar(id, list[j].id)
      requires i == |list| || Similar(id, list[i].id)
      ensures FindSimilar(list, id) == i
    {
    }

    method AddToFront(peer: Peer)
      modifies this`unknown, this`flagged
      ensures ProxyState() == PushFront(old(ProxyState()), peer)
    {
      if HasAll(peer.flags, REQUIRED_FLAGS) {
        flagged := [peer] + flagged;
      } else {
        unknown := [peer] + unknown;
      }
    }

    method TrimProxies()
      modifies this`unknown, this`flagged
      ensures ProxyState() == QuerySpec.TrimProxies(old(ProxyState()))
    {
      while |unknown| > MAX_POTENTIAL_PROXIES
        invariant FrontPeers(unknown, MAX_POTENTIAL_PROXIES) == FrontPeers(old(unknown), MAX_POTENTIAL_PROXIES)
        invariant flagged == old(flagged)
      {
        unknown := unknown[..|unknown| - 1];
      }
      while |flagged| > MAX_POTENTIAL_PROXIES
        invariant FrontPeers(flagged, MAX_POTENTIAL_PROXIES) == FrontPeers(old(flagged), MAX_POTENTIAL_PROXIES)
        invariant unknown == FrontPeers(old(unknown), MAX_POTENTIAL_PROXIES)
      {
        flagged := flagged[..|flagged| - 1];
      }
    }

    method UpdateProxy(id: BdId, mode: bv32, now: int)
      modifies this`unknown, this`flagged
      ensures ProxyState() == QuerySpec.UpdateProxy(old(ProxyState()), id, mode, now)
    {
      var found := UpdateProxyList(id, mode, false, now);
      if !found {
        found := UpdateProxyList(id, mode, true, now);
      }
      TrimProxies();
    }

    /** The source of an answer that names the target (bucket 0) is a potential proxy. */
    method AddProxy(id: BdId, src: Option<BdId>, mode: bv32, now: int) returns (isProxy: bool)
      modifies this`unknown, this`flagged
      ensures isProxy == (BucketOf(Dist(target, id.id)) == 0 && src.Some?)
      ensures ProxyState() == if isProxy then QuerySpec.AddProxy(old(ProxyState()), src.value, mode, now)
                              else old(ProxyState())
    {
      var bucket := BucketDistance(Dist(target, id.id));
      if bucket != 0 || src.None? {
        return false;
      }
      var found := UpdateProxyList(src.value, mode, false, now);
      if !found {
        found := UpdateProxyList(src.value, mode, true, now);
      }
      if !found {
        AddToFront(NewProxy(src.value, mode, now));
      }
      TrimProxies();
      isProxy := true;
    }

    // ------------------------------------------------------------ entry points

    /** A peer has sent a message. */
    method AddPeer(id: BdId, mode: bv32, now: int)
      modifies this`closest, this`potential, this`unknown, this`flagged
      ensures closest == AddClosest(old(closest), target, id, mode, now).0 && closest != []
      ensures potential == UpdatePotential(old(potential), closest, target, id, mode, PeerMessage, now).0
      ensures ProxyState() == QuerySpec.UpdateProxy(old(ProxyState()), id, mode, now)
      ensures old(Valid()) ==> Valid()
    {
      var _ := AddClosestPeer(id, mode, now);
      var _ := UpdatePotentialPeer(id, mode, PeerMessage, now);
      UpdateProxy(id, mode, now);
    }

    /** A peer was named by another: its source may be a proxy, and it may be worth a ping. */
    method AddPotentialPeer(id: BdId, src: Option<BdId>, mode: bv32, now: int) returns (shouldPing: bool)
      requires closest != [] || |potential| < NUM_QUERY_NODES || IsKnown(potential, target, id)
      modifies this`potential, this`unknown, this`flagged
      ensures ProxyState() == if BucketOf(Dist(target, id.id)) == 0 && src.Some?
                              then QuerySpec.AddProxy(old(ProxyState()), src.value, mode, now) else old(ProxyState())
      ensures (potential, shouldPing) == if !Worthy(closest, target, id) then (old(potential), false)
                else UpdatePotential(old(potential), closest, target, id, 0, FindNodeResponse, now)
      ensures old(Valid()) ==> Valid()
    {
      var _ := AddProxy(id, src, mode, now);
      var worthy := WorthyPotentialPeer(id);
      shouldPing := false;
      if worthy {
        shouldPing := UpdatePotentialPeer(id, 0, FindNodeResponse, now);
      }
    }

    method WorthyPotentialPeer(id: BdId) returns (worthy: bool)
      ensures worthy == Worthy(closest, target, id)
    {
      var dist := Dist(target, id.id);
      var l, u := LowerBound(closest, dist), UpperBound(closest, dist);
      if l == |closest| && |closest| >= NUM_QUERY_NODES {
        return false;
      }
      var k := SearchSimilar(closest, l, u, id);
      worthy := k >= u;
    }
  }
}
