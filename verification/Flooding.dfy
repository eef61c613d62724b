/** One lobby message in a network of peers: it is forwarded once each, stops, and reaches everybody. */
module Flooding {
  import opened Collections
  import opened LobbySpec
  import opened LobbyRuns

  /**
   * The members of the network, the copies of the message on their way (from,
   * to), who has used the message so far, how many copies were sent and how
   * many arrived or were lost.  There is one clock.
   */
  datatype Net = Net(members: map<Peer, Service>, flight: multiset<(Peer, Peer)>, used: seq<Peer>,
                     copies: nat, done: nat, now: int)

  datatype Move =
    | Deliver(from: Peer, to: Peer, connected: set<Peer>, checks: bool, now: int)
    | Lose(from: Peer, to: Peer)
    | Local(at: Peer, step: Step)

  predicate Enabled(msg: Item, net: Net, m: Move) {
    match m
    case Deliver(from, to, _, _, now) => (from, to) in net.flight && to in net.members && net.now <= now
    case Lose(from, to) => (from, to) in net.flight
    case Local(at, step) =>
      // anything else a peer does, and the first sending of the message
      && at in net.members && net.now <= step.now
      && (IsAbout(step, msg.lobby, msg.id) ==> step.Send? && step.item == msg)
      && !(step.Leave? && step.lobby == msg.lobby) && !(step.DropFriend? && step.lobby == msg.lobby)
  }

  function StepOf(msg: Item, m: Move): Step
    requires !m.Lose?
  {
    if m.Deliver? then Receive(msg, m.from, m.connected, m.checks, m.now) else m.step
  }

  function At(m: Move): Peer
    requires !m.Lose?
  {
    if m.Deliver? then m.to else m.at
  }

  function Pairs(from: Peer, targets: set<Peer>): set<(Peer, Peer)> {
    set q | q in targets :: (from, q)
  }

  function Copies(from: Peer, targets: set<Peer>): multiset<(Peer, Peer)> {
    multiset(Pairs(from, targets))
  }

  /** One copy arrives or is lost. */
  function Take(net: Net, k: (Peer, Peer)): Net {
    net.(flight := net.flight - multiset{k}, done := net.done + 1)
  }

  /** Peer `at` performs `step`, which may use the message and forward it. */
  function Perform(msg: Item, net: Net, at: Peer, step: Step): Net
    requires at in net.members
  {
    var o := Do(net.members[at], step);
    var net1 := net.(members := net.members[at := o.service], now := step.now);
    if IsAbout(step, msg.lobby, msg.id) && o.accepted
    then net1.(flight := net.flight + Copies(at, o.targets), copies := net.copies + |o.targets|,
               used := net.used + [at])
    else net1
  }

  function Apply(msg: Item, net: Net, m: Move): Net {
    if !Enabled(msg, net, m) then net
    else
      match m
      case Deliver(from, to, _, _, _) =>
        Perform(msg, Take(net, (from, to)), to, StepOf(msg, m))
      case Lose(from, to) => Take(net, (from, to))
      case Local(at, step) => Perform(msg, net, at, step)
  }

  function Play(msg: Item, net: Net, moves: seq<Move>): Net {
    if moves == [] then net
    else Apply(msg, Play(msg, net, moves[..|moves| - 1]), moves[|moves| - 1])
  }

  /** Nobody has seen the message yet. */
  ghost predicate Start(msg: Item, net: Net) {
    && net.flight == multiset{} && net.used == [] && net.copies == net.done == 0
    && forall p :: p in net.members ==>
         && net.members[p].own == p
         && (msg.lobby in net.members[p].lobbies ==> msg.id !in net.members[p].lobbies[msg.lobby].msgCache)
  }

  // ------------------------------------------------------ one step of a peer

  lemma DoKeeps(s: Service, step: Step, lobby: LobbyId)
    requires lobby in s.lobbies
    requires !(step.Leave? && step.lobby == lobby) && !(step.DropFriend? && step.lobby == lobby)
    ensures var t := Do(s, step).service;
            t.own == s.own && lobby in t.lobbies && s.lobbies[lobby].friends <= t.lobbies[lobby].friends
  {
    if step.Receive? {
      HandleFriends(s, step.item, step.peer, step.connected, step.checks, step.now);
    } else if step.Send? {
      BounceFriends(s, step.item, s.own, step.connected, step.now);
    }
  }

  /** What is accepted goes to the connected participants except the one it came from; nothing else goes anywhere. */
  ghost predicate ForwardsTo(s: Service, lobby: LobbyId, peer: Peer, connected: set<Peer>, o: Outcome) {
    if o.accepted
    then lobby in s.lobbies
         && forall q :: q in o.targets <==> q in s.lobbies[lobby].friends && q in connected && q != peer
    else o.targets == {}
  }

  /** Whoever shows an object that is accepted is a participant from then on. */
  predicate Shown(s: Service, lobby: LobbyId, peer: Peer, o: Outcome) {
    o.accepted ==> lobby in o.service.lobbies && (peer != s.own ==> peer in o.service.lobbies[lobby].friends)
  }

  lemma BounceFriends(s: Service, item: Item, peer: Peer, connected: set<Peer>, now: int)
    ensures var o := Bounce(s, item, peer, connected, now);
            && o.service.own == s.own && o.service.lobbies.Keys == s.lobbies.Keys
            && (forall l :: l in s.lobbies ==> s.lobbies[l].friends <= o.service.lobbies[l].friends)
            && Shown(s, item.lobby, peer, o)
            && ForwardsTo(s, item.lobby, peer, connected, o)
  {
  }

  lemma HandleFriends(s: Service, item: Item, peer: Peer, connected: set<Peer>, checks: bool, now: int)
    ensures var o := Handle(s, item, peer, connected, checks, now);
            && o.service.own == s.own && o.service.lobbies.Keys == s.lobbies.Keys
            && (forall l :: l in s.lobbies ==> s.lobbies[l].friends <= o.service.lobbies[l].friends)
            && Shown(s, item.lobby, peer, o)
            && ForwardsTo(s, item.lobby, peer, connected, o)
  {
    BounceFriends(s, item, peer, connected, now);
    NoteFriends(Bounce(s, item, peer, connected, now).service, item, now);
  }

  lemma NoteFriends(s: Service, item: Item, now: int)
    ensures var t := Note(s, item, now);
            && t.own == s.own && t.lobbies.Keys == s.lobbies.Keys
            && forall l :: l in s.lobbies ==> s.lobbies[l].friends == t.lobbies[l].friends
  {
    match item.kind {
      case Chat =>
      case PeerLeft =>
      case PeerJoined =>
      case KeepAlive =>
      case OtherEvent =>
    }
  }

  /** Who showed the object to `at`; what it sends itself it shows to itself. */
  function SenderOf(at: Peer, step: Step): Peer {
    if step.Receive? then step.peer else at
  }

  /** A use of the message: a copy goes to every connected friend but the sender. */
  lemma UseForwards(msg: Item, net: Net, at: Peer, step: Step)
    requires at in net.members && net.members[at].own == at
    requires IsAbout(step, msg.lobby, msg.id) && Do(net.members[at], step).accepted
    ensures var s := net.members[at];
            var o := Do(s, step);
            && msg.lobby in s.lobbies && msg.lobby in o.service.lobbies
            && s.lobbies[msg.lobby].friends <= o.service.lobbies[msg.lobby].friends
            && Shown(s, msg.lobby, SenderOf(at, step), o)
            && ForwardsTo(s, msg.lobby, SenderOf(at, step), step.connected, o)
  {
    if step.Receive? {
      HandleFriends(net.members[at], step.item, step.peer, step.connected, step.checks, step.now);
    } else {
      BounceFriends(net.members[at], step.item, at, step.connected, step.now);
    }
  }

  // --------------------------------------------------------- forwarded once

  ghost predicate Distinct(ps: seq<Peer>) {
    forall i, j :: 0 <= i < j < |ps| ==> ps[i] != ps[j]
  }

  /** Whoever has used the message remembers it. */
  ghost predicate OnceInv(msg: Item, net: Net) {
    && Distinct(net.used)
    && (forall p :: p in net.members ==> net.members[p].own == p)
    && (forall p :: p in net.used ==>
         p in net.members && Remembers(net.members[p], msg.lobby, msg.id, msg.sendTime, net.now))
    && (net.used != [] ==> msg.sendTime <= net.now)
    && (forall k :: k in net.flight ==> k.0 in net.used)
  }

  lemma UsedAfter(used: seq<Peer>, at: Peer)
    requires Distinct(used) && at !in used
    ensures Distinct(used + [at])
  {
  }

  lemma FlightAfter(flight: multiset<(Peer, Peer)>, used: seq<Peer>, at: Peer, targets: set<Peer>)
    requires forall k :: k in flight ==> k.0 in used
    ensures forall k :: k in flight + Copies(at, targets) ==> k.0 in used + [at]
  {
    forall k | k in flight + Copies(at, targets)
      ensures k.0 in used + [at]
    {
      assert k in flight || k in Pairs(at, targets);
    }
  }

  lemma OnceAfter(msg: Item, net: Net, at: Peer, o: Outcome, uses: bool, after: Net)
    requires OnceInv(msg, net) && at in net.members && net.now <= after.now && o.service.own == at
    requires after.members == net.members[at := o.service]
    requires uses ==> at !in net.used && msg.sendTime <= after.now
    requires uses || at in net.used ==> Remembers(o.service, msg.lobby, msg.id, msg.sendTime, after.now)
    requires after.used == (if uses then net.used + [at] else net.used)
    requires after.flight == (if uses then net.flight + Copies(at, o.targets) else net.flight)
    ensures OnceInv(msg, after)
  {
    if uses {
      UsedAfter(net.used, at);
      FlightAfter(net.flight, net.used, at, o.targets);
    }
    forall p | p in after.used
      ensures p in after.members && Remembers(after.members[p], msg.lobby, msg.id, msg.sendTime, after.now)
    {
      if p != at {
        assert p in net.used;
      }
    }
  }

  lemma PerformOnce(msg: Item, net: Net, at: Peer, step: Step)
    requires OnceInv(msg, net) && at in net.members && net.now <= step.now
    requires !(step.Leave? && step.lobby == msg.lobby)
    requires IsAbout(step, msg.lobby, msg.id) ==> step.item == msg
    requires IsAbout(step, msg.lobby, msg.id) ==> step.Send? || net.used != []
    ensures OnceInv(msg, Perform(msg, net, at, step))
  {
    var s := net.members[at];
    var o := Do(s, step);
    var uses := IsAbout(step, msg.lobby, msg.id) && o.accepted;
    DoOwn(s, step);
    if at in net.used {
      StepRemembers(s, step, msg.lobby, msg.id, msg.sendTime, net.now);
    } else if uses {
      UsedIsRemembered(s, step, msg.lobby, msg.id, msg.sendTime);
    }
    OnceAfter(msg, net, at, o, uses, Perform(msg, net, at, step));
  }

  lemma DoOwn(s: Service, step: Step)
    ensures Do(s, step).service.own == s.own
  {
  }

  lemma ApplyOnce(msg: Item, net: Net, m: Move)
    requires OnceInv(msg, net)
    ensures OnceInv(msg, Apply(msg, net, m))
  {
    if Enabled(msg, net, m) && !m.Lose? {
      var net1 := if m.Deliver? then Take(net, (m.from, m.to)) else net;
      PerformOnce(msg, net1, At(m), StepOf(msg, m));
    }
  }

  lemma {:induction false} PlayOnce(msg: Item, net: Net, moves: seq<Move>)
    requires Start(msg, net)
    ensures OnceInv(msg, Play(msg, net, moves))
  {
    if moves != [] {
      PlayOnce(msg, net, moves[..|moves| - 1]);
      ApplyOnce(msg, Play(msg, net, moves[..|moves| - 1]), moves[|moves| - 1]);
    }
  }

  /** In every run each peer uses and forwards the message at most once. */
  lemma ForwardedOnce(msg: Item, net: Net, moves: seq<Move>)
    requires Start(msg, net)
    ensures Distinct(Play(msg, net, moves).used)
  {
    PlayOnce(msg, net, moves);
  }

  // ----------------------------------------------------------- copies bounded

  function Friends(net: Net, lobby: LobbyId, p: Peer): set<Peer> {
    if p in net.members && lobby in net.members[p].lobbies then net.members[p].lobbies[lobby].friends else {}
  }

  function FriendSum(net: Net, lobby: LobbyId, ps: seq<Peer>): nat {
    if ps == [] then 0
    else FriendSum(net, lobby, ps[..|ps| - 1]) + |Friends(net, lobby, ps[|ps| - 1])|
  }

  lemma {:induction false} FriendSumGrows(net: Net, after: Net, lobby: LobbyId, ps: seq<Peer>)
    requires forall p :: p in ps ==> Friends(net, lobby, p) <= Friends(after, lobby, p)
    ensures FriendSum(net, lobby, ps) <= FriendSum(after, lobby, ps)
  {
    if ps != [] {
      FriendSumGrows(net, after, lobby, ps[..|ps| - 1]);
      SubsetSize(Friends(net, lobby, ps[|ps| - 1]), Friends(after, lobby, ps[|ps| - 1]));
    }
  }

  lemma {:induction false} PairsSize(from: Peer, targets: set<Peer>)
    ensures |Pairs(from, targets)| == |targets|
  {
    if targets == {} {
      assert Pairs(from, targets) == {};
    } else {
      var q :| q in targets;
      PairsSize(from, targets - {q});
      assert Pairs(from, targets) == Pairs(from, targets - {q}) + {(from, q)};
    }
  }

  /** How many peers used the message because they sent it themselves. */
  function Origins(msg: Item, net: Net, moves: seq<Move>): nat {
    if moves == [] then 0
    else
      var n := |moves| - 1;
      var before := Play(msg, net, moves[..n]);
      Origins(msg, net, moves[..n])
      + if moves[n].Local? && |Play(msg, net, moves).used| > |before.used| then 1 else 0
  }

  /** Every user but the origins kept the copy for the one that sent it to him. */
  ghost predicate CountInv(msg: Item, net: Net, origins: nat) {
    && net.copies == |net.flight| + net.done
    && origins <= |net.used|
    && net.copies + |net.used| <= FriendSum(net, msg.lobby, net.used) + origins
  }

  lemma FriendsAfter(net: Net, at: Peer, t: Service, after: Net, lobby: LobbyId)
    requires at in net.members && after.members == net.members[at := t]
    requires lobby in net.members[at].lobbies ==>
      lobby in t.lobbies && net.members[at].lobbies[lobby].friends <= t.lobbies[lobby].friends
    ensures forall p :: Friends(net, lobby, p) <= Friends(after, lobby, p)
  {
  }

  lemma FriendsGrow(msg: Item, net: Net, at: Peer, step: Step)
    requires at in net.members
    requires !(step.Leave? && step.lobby == msg.lobby) && !(step.DropFriend? && step.lobby == msg.lobby)
    ensures forall p :: Friends(net, msg.lobby, p) <= Friends(Perform(msg, net, at, step), msg.lobby, p)
  {
    if msg.lobby in net.members[at].lobbies {
      DoKeeps(net.members[at], step, msg.lobby);
    }
    FriendsAfter(net, at, Do(net.members[at], step).service, Perform(msg, net, at, step), msg.lobby);
  }

  /** The copies of a use: one for each participant, without one for the sender if he is another peer. */
  lemma UseCount(msg: Item, net: Net, at: Peer, step: Step)
    requires at in net.members && net.members[at].own == at
    requires IsAbout(step, msg.lobby, msg.id) && Do(net.members[at], step).accepted
    ensures var o, after := Do(net.members[at], step), Perform(msg, net, at, step);
            |o.targets| + (if SenderOf(at, step) != at then 1 else 0) <= |Friends(after, msg.lobby, at)|
  {
    hide Do;
    var o, after := Do(net.members[at], step), Perform(msg, net, at, step);
    var sender := SenderOf(at, step);
    UseForwards(msg, net, at, step);
    assert Friends(after, msg.lobby, at) == o.service.lobbies[msg.lobby].friends;
    if sender != at {
      SubsetSize(o.targets + {sender}, Friends(after, msg.lobby, at));
    } else {
      SubsetSize(o.targets, Friends(after, msg.lobby, at));
    }
  }

  lemma PerformCount(msg: Item, net: Net, at: Peer, step: Step, origins: nat)
    requires CountInv(msg, net, origins) && at in net.members && net.members[at].own == at
    requires !(step.Leave? && step.lobby == msg.lobby) && !(step.DropFriend? && step.lobby == msg.lobby)
    ensures var after := Perform(msg, net, at, step);
            var uses := IsAbout(step, msg.lobby, msg.id) && Do(net.members[at], step).accepted;
            CountInv(msg, after, if uses && SenderOf(at, step) == at then origins + 1 else origins)
  {
    hide Do;
    var o := Do(net.members[at], step);
    var after := Perform(msg, net, at, step);
    FriendsGrow(msg, net, at, step);
    FriendSumGrows(net, after, msg.lobby, net.used);
    if IsAbout(step, msg.lobby, msg.id) && o.accepted {
      UseCount(msg, net, at, step);
      PairsSize(at, o.targets);
      assert after.used[..|net.used|] == net.used;
    }
  }

  lemma TakeCount(msg: Item, net: Net, k: (Peer, Peer), origins: nat)
    requires CountInv(msg, net, origins) && k in net.flight
    ensures CountInv(msg, Take(net, k), origins)
  {
    FriendSumGrows(net, Take(net, k), msg.lobby, net.used);
  }

  /** Whoever uses a copy got it from another peer, who has used the message before. */
  lemma UserIsNotSender(msg: Item, net: Net, m: Move)
    requires OnceInv(msg, net) && Enabled(msg, net, m) && m.Deliver?
    requires Do(net.members[m.to], StepOf(msg, m)).accepted
    ensures m.from != m.to && m.to !in net.used && m.from in net.used
  {
    if m.to in net.used {
      StepRemembers(net.members[m.to], StepOf(msg, m), msg.lobby, msg.id, msg.sendTime, net.now);
    }
  }

  lemma ApplyCount(msg: Item, net: Net, m: Move, origins: nat)
    requires CountInv(msg, net, origins) && OnceInv(msg, net)
    ensures var after := Apply(msg, net, m);
            CountInv(msg, after, if m.Local? && |after.used| > |net.used| then origins + 1 else origins)
  {
    hide Do, CountInv, OnceInv;
    if Enabled(msg, net, m) {
      if m.Local? {
        OwnNames(msg, net);
        PerformCount(msg, net, m.at, m.step, origins);
      } else {
        TakeCount(msg, net, (m.from, m.to), origins);
        if m.Deliver? {
          OwnNames(msg, net);
          PerformCount(msg, Take(net, (m.from, m.to)), m.to, StepOf(msg, m), origins);
          if Do(net.members[m.to], StepOf(msg, m)).accepted {
            UserIsNotSender(msg, net, m);
          }
        }
      }
    }
  }

  lemma OwnNames(msg: Item, net: Net)
    requires OnceInv(msg, net)
    ensures forall p :: p in net.members ==> net.members[p].own == p
  {
  }

  lemma {:induction false} PlayCount(msg: Item, net: Net, moves: seq<Move>)
    requires Start(msg, net)
    ensures CountInv(msg, Play(msg, net, moves), Origins(msg, net, moves))
  {
    if moves != [] {
      PlayCount(msg, net, moves[..|moves| - 1]);
      PlayOnce(msg, net, moves[..|moves| - 1]);
      ApplyCount(msg, Play(msg, net, moves[..|moves| - 1]), moves[|moves| - 1],
                 Origins(msg, net, moves[..|moves| - 1]));
    }
  }

  /**
   * The flood stops: the copies ever sent, and so the deliveries that can ever
   * happen, are bounded by the friend-set sizes of distinct peers, less one for
   * each of them that did not send the message itself.
   */
  lemma FloodStops(msg: Item, net: Net, moves: seq<Move>)
    requires Start(msg, net)
    ensures var end := Play(msg, net, moves);
            && end.done <= end.copies
            && end.copies + |end.used| <= FriendSum(end, msg.lobby, end.used) + Origins(msg, net, moves)
            && Origins(msg, net, moves) <= |end.used|
            && (end.done == end.copies <==> end.flight == multiset{})
            && Distinct(end.used)
  {
    PlayCount(msg, net, moves);
    ForwardedOnce(msg, net, moves);
  }

  lemma PairsHold(from: Peer, targets: set<Peer>, k: (Peer, Peer))
    ensures Copies(from, targets)[k] == if k.0 == from && k.1 in targets then 1 else 0
  {
    assert k in Pairs(from, targets) <==> k.0 == from && k.1 in targets;
  }

  /**
   * In every run a delivery takes its copy out of the network and puts in one
   * for each connected participant except the sender, if the copy is used, and
   * none otherwise: nothing goes back to where it came from.
   */
  lemma NoEcho(msg: Item, net: Net, moves: seq<Move>, m: Move)
    requires Start(msg, net) && m.Deliver? && Enabled(msg, Play(msg, net, moves), m)
    ensures var before := Play(msg, net, moves);
            var after := Apply(msg, before, m);
            var used := Do(before.members[m.to], StepOf(msg, m)).accepted;
            && (forall p, q :: after.flight[(p, q)]
                 == before.flight[(p, q)] - (if (p, q) == (m.from, m.to) then 1 else 0)
                    + (if used && p == m.to && q in Friends(before, msg.lobby, m.to) && q in m.connected && q != m.from
                       then 1 else 0))
            && (used ==> m.from != m.to)
            && after.flight[(m.to, m.from)] <= before.flight[(m.to, m.from)]
  {
    hide Do;
    var before := Play(msg, net, moves);
    PlayOnce(msg, net, moves);
    OwnNames(msg, before);
    hide OnceInv;
    var o := Do(before.members[m.to], StepOf(msg, m));
    if o.accepted {
      UserIsNotSender(msg, before, m);
      UseForwards(msg, before, m.to, StepOf(msg, m));
      forall p, q
        ensures Copies(m.to, o.targets)[(p, q)] == if p == m.to && q in o.targets then 1 else 0
      {
        PairsHold(m.to, o.targets, (p, q));
      }
    }
  }

  // ------------------------------------------------------- everybody is reached

  /** The flood check lets a new object of `peer` through. */
  predicate FloodPasses(s: Service, item: Item, peer: Peer, now: int)
    requires item.lobby in s.lobbies
  {
    var e := Seen(s.lobbies[item.lobby], s.own, item, peer, now).(lastActivity := now);
    FloodCheck(s.(lobbies := s.lobbies[item.lobby := e]), item.lobby, peer, now).1
  }

  /** Nothing is lost, every check passes and the linked peers are connected. */
  ghost predicate Smooth(msg: Item, links: set<(Peer, Peer)>, net: Net, m: Move) {
    match m
    case Lose(_, _) => false
    case Deliver(from, to, connected, checks, now) =>
      && checks && InWindow(msg.sendTime, now)
      && (forall q :: (to, q) in links ==> q in connected)
      && to in net.members && msg.lobby in net.members[to].lobbies
      && FloodPasses(net.members[to], msg, from, now)
    case Local(at, step) =>
      IsAbout(step, msg.lobby, msg.id) && at in net.members && msg.lobby in net.members[at].lobbies && step.Send? ==>
        && (forall q :: (at, q) in links ==> q in step.connected)
        && FloodPasses(net.members[at], step.item, at, step.now)
  }

  ghost predicate AllSmooth(msg: Item, links: set<(Peer, Peer)>, net: Net, moves: seq<Move>) {
    forall i :: 0 <= i < |moves| ==>
      var mid := Play(msg, net, moves[..i]);
      Enabled(msg, mid, moves[i]) ==> Smooth(msg, links, mid, moves[i])
  }

  /** From the start `q` is a participating friend of `p`, and they are connected. */
  predicate Linked(start: Net, lobby: LobbyId, links: set<(Peer, Peer)>, p: Peer, q: Peer) {
    (p, q) in links && q in Friends(start, lobby, p) && p != q
  }

  predicate Cached(s: Service, lobby: LobbyId, id: MsgId) {
    lobby in s.lobbies && id in s.lobbies[lobby].msgCache
  }

  ghost predicate ReachInv(msg: Item, start: Net, links: set<(Peer, Peer)>, net: Net) {
    && (forall p :: Friends(start, msg.lobby, p) <= Friends(net, msg.lobby, p))
    && (forall p :: p in net.members && Cached(net.members[p], msg.lobby, msg.id) ==> p in net.used)
    && (forall p, q :: p in net.used && Linked(start, msg.lobby, links, p, q) ==> q in net.used || (p, q) in net.flight)
  }

  lemma DoCaches(s: Service, step: Step, lobby: LobbyId, id: MsgId)
    requires !IsAbout(step, lobby, id)
    ensures Cached(Do(s, step).service, lobby, id) ==> Cached(s, lobby, id)
  {
    if step.Receive? && step.item.lobby in s.lobbies {
      HandleCaches(s, step.item, step.peer, step.connected, step.checks, step.now);
    } else if step.Send? && step.item.lobby in s.lobbies {
      BounceCaches(s, step.item, s.own, step.connected, step.now);
    }
  }

  lemma BounceAccepts(s: Service, item: Item, peer: Peer, connected: set<Peer>, now: int)
    requires item.lobby in s.lobbies && FloodPasses(s, item, peer, now)
    ensures Bounce(s, item, peer, connected, now).accepted <==> !Cached(s, item.lobby, item.id)
  {
  }

  /** If the checks pass, the message is used unless it is in the cache. */
  lemma SmoothUses(msg: Item, links: set<(Peer, Peer)>, net: Net, m: Move)
    requires !m.Lose? && Enabled(msg, net, m) && Smooth(msg, links, net, m) && net.members[At(m)].own == At(m)
    requires IsAbout(StepOf(msg, m), msg.lobby, msg.id)
    ensures var s := net.members[At(m)];
            var o := Do(s, StepOf(msg, m));
            o.accepted || Cached(s, msg.lobby, msg.id) || !Cached(o.service, msg.lobby, msg.id)
    ensures m.Deliver? ==>
              Do(net.members[m.to], StepOf(msg, m)).accepted || Cached(net.members[m.to], msg.lobby, msg.id)
  {
    var s := net.members[At(m)];
    if m.Deliver? {
      BounceAccepts(s, msg, m.from, m.connected, m.now);
    } else if msg.lobby in s.lobbies {
      BounceAccepts(s, msg, At(m), m.step.connected, m.step.now);
    }
  }

  lemma ReachAfter(msg: Item, start: Net, links: set<(Peer, Peer)>, net: Net, at: Peer, o: Outcome, uses: bool,
                   sender: Peer, gone: multiset<(Peer, Peer)>, after: Net)
    requires ReachInv(msg, start, links, net) && at in net.members
    requires after.members == net.members[at := o.service]
    requires after.used == (if uses then net.used + [at] else net.used)
    requires after.flight == net.flight - gone + (if uses then Copies(at, o.targets) else multiset{})
    requires forall p :: Friends(net, msg.lobby, p) <= Friends(after, msg.lobby, p)
    requires Cached(o.service, msg.lobby, msg.id) ==> uses || at in net.used
    requires forall k :: k in gone ==> k.1 == at && (uses || at in net.used)
    requires sender == at || sender in net.used
    requires uses ==> forall q :: Linked(start, msg.lobby, links, at, q) && q != sender ==> q in o.targets
    ensures ReachInv(msg, start, links, after)
  {
    forall p, q | p in after.used && Linked(start, msg.lobby, links, p, q)
      ensures q in after.used || (p, q) in after.flight
    {
      if p in net.used {
        if q !in net.used && q != at {
          assert (p, q) in net.flight && (p, q) !in gone;
        }
      } else if q != sender {
        assert (at, q) in Pairs(at, o.targets);
      }
    }
  }

  /** What one move makes of the three observed parts of the network. */
  lemma ApplyShape(msg: Item, net: Net, m: Move)
    requires Enabled(msg, net, m) && !m.Lose?
    ensures var o := Do(net.members[At(m)], StepOf(msg, m));
            var uses := IsAbout(StepOf(msg, m), msg.lobby, msg.id) && o.accepted;
            var after := Apply(msg, net, m);
            && after.members == net.members[At(m) := o.service]
            && after.used == (if uses then net.used + [At(m)] else net.used)
            && after.flight == net.flight - Gone(m) + (if uses then Copies(At(m), o.targets) else multiset{})
  {
    if m.Deliver? {
      PerformShape(msg, Take(net, (m.from, m.to)), m.to, StepOf(msg, m));
    } else {
      PerformShape(msg, net, m.at, m.step);
    }
  }

  lemma PerformShape(msg: Item, net: Net, at: Peer, step: Step)
    requires at in net.members
    ensures var o := Do(net.members[at], step);
            var uses := IsAbout(step, msg.lobby, msg.id) && o.accepted;
            var after := Perform(msg, net, at, step);
            && after.members == net.members[at := o.service]
            && after.used == (if uses then net.used + [at] else net.used)
            && after.flight == net.flight + (if uses then Copies(at, o.targets) else multiset{})
  {
  }

  function Gone(m: Move): multiset<(Peer, Peer)>
    requires !m.Lose?
  {
    if m.Deliver? then multiset{(m.from, m.to)} else multiset{}
  }

  function Sender(m: Move): Peer
    requires !m.Lose?
  {
    if m.Deliver? then m.from else m.at
  }

  /** The cache of the peer that moves holds the message only if the peer has used it. */
  lemma MoveCaches(msg: Item, start: Net, links: set<(Peer, Peer)>, net: Net, m: Move)
    requires ReachInv(msg, start, links, net) && OnceInv(msg, net)
    requires Enabled(msg, net, m) && Smooth(msg, links, net, m)
    ensures var o := Do(net.members[At(m)], StepOf(msg, m));
            var uses := IsAbout(StepOf(msg, m), msg.lobby, msg.id) && o.accepted;
            && (Cached(o.service, msg.lobby, msg.id) ==> uses || At(m) in net.used)
            && (m.Deliver? ==> uses || At(m) in net.used)
  {
    if IsAbout(StepOf(msg, m), msg.lobby, msg.id) {
      SmoothUses(msg, links, net, m);
    } else {
      DoCaches(net.members[At(m)], StepOf(msg, m), msg.lobby, msg.id);
    }
  }

  /** All linked peers but the sender get a copy. */
  lemma MoveForwards(msg: Item, start: Net, links: set<(Peer, Peer)>, net: Net, m: Move)
    requires ReachInv(msg, start, links, net) && OnceInv(msg, net)
    requires Enabled(msg, net, m) && Smooth(msg, links, net, m)
    requires IsAbout(StepOf(msg, m), msg.lobby, msg.id) && Do(net.members[At(m)], StepOf(msg, m)).accepted
    ensures forall q :: Linked(start, msg.lobby, links, At(m), q) && q != Sender(m)
              ==> q in Do(net.members[At(m)], StepOf(msg, m)).targets
  {
    UseForwards(msg, net, At(m), StepOf(msg, m));
    assert Friends(start, msg.lobby, At(m)) <= Friends(net, msg.lobby, At(m));
  }

  lemma MoveGrows(msg: Item, net: Net, m: Move)
    requires Enabled(msg, net, m) && !m.Lose?
    ensures forall p :: Friends(net, msg.lobby, p) <= Friends(Apply(msg, net, m), msg.lobby, p)
  {
    var o := Do(net.members[At(m)], StepOf(msg, m));
    if msg.lobby in net.members[At(m)].lobbies {
      DoKeeps(net.members[At(m)], StepOf(msg, m), msg.lobby);
    }
    FriendsAfter(net, At(m), o.service, Apply(msg, net, m), msg.lobby);
  }

  lemma ApplyReach(msg: Item, start: Net, links: set<(Peer, Peer)>, net: Net, m: Move)
    requires ReachInv(msg, start, links, net) && OnceInv(msg, net)
    requires Enabled(msg, net, m) && Smooth(msg, links, net, m)
    ensures ReachInv(msg, start, links, Apply(msg, net, m))
  {
    assert !m.Lose?;
    hide ReachInv, Smooth, Do, IsAbout, Remembers;
    var o := Do(net.members[At(m)], StepOf(msg, m));
    var uses := IsAbout(StepOf(msg, m), msg.lobby, msg.id) && o.accepted;
    MoveCaches(msg, start, links, net, m);
    if uses {
      MoveForwards(msg, start, links, net, m);
    }
    MoveGrows(msg, net, m);
    ApplyShape(msg, net, m);
    ReachAfter(msg, start, links, net, At(m), o, uses, Sender(m), Gone(m), Apply(msg, net, m));
  }

  lemma {:induction false} PlayReach(msg: Item, links: set<(Peer, Peer)>, net: Net, moves: seq<Move>)
    requires Start(msg, net) && AllSmooth(msg, links, net, moves)
    ensures ReachInv(msg, net, links, Play(msg, net, moves))
  {
    if moves != [] {
      var n := |moves| - 1;
      forall i | 0 <= i < n
        ensures moves[..n][..i] == moves[..i]
      {
      }
      PlayReach(msg, links, net, moves[..n]);
      PlayOnce(msg, net, moves[..n]);
      if Enabled(msg, Play(msg, net, moves[..n]), moves[n]) {
        ApplyReach(msg, net, links, Play(msg, net, moves[..n]), moves[n]);
      }
    }
  }

  predicate IsPath(start: Net, lobby: LobbyId, links: set<(Peer, Peer)>, path: seq<Peer>) {
    path != [] && forall i :: 0 < i < |path| ==> Linked(start, lobby, links, path[i - 1], path[i])
  }

  lemma {:induction false} FollowPath(msg: Item, start: Net, links: set<(Peer, Peer)>, net: Net, path: seq<Peer>)
    requires ReachInv(msg, start, links, net) && net.flight == multiset{}
    requires IsPath(start, msg.lobby, links, path) && path[0] in net.used
    ensures path[|path| - 1] in net.used
  {
    var n := |path| - 1;
    if n > 0 {
      FollowPath(msg, start, links, net, path[..n]);
      assert path[..n][n - 1] == path[n - 1];
    }
  }

  /**
   * When no copy is on its way any more, everybody whom a path of links joins
   * to a peer that has used the message has used it too.
   */
  lemma EverybodyIsReached(msg: Item, links: set<(Peer, Peer)>, net: Net, moves: seq<Move>, path: seq<Peer>)
    requires Start(msg, net) && AllSmooth(msg, links, net, moves)
    requires Play(msg, net, moves).flight == multiset{}
    requires IsPath(net, msg.lobby, links, path) && path[0] in Play(msg, net, moves).used
    ensures path[|path| - 1] in Play(msg, net, moves).used
  {
    PlayReach(msg, links, net, moves);
    FollowPath(msg, net, links, Play(msg, net, moves), path);
  }
}
